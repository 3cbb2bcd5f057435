/** The cloud reply path of `generate_gemini_response`: the persona chosen from the user's
    gender, the system instruction chosen by mode, the request parts (an optional inline
    JPEG whose data-URI header is cut off, then the text), and the ordered walk over the
    candidate model names that returns on the first usable answer, moves on after a 404 or
    a failed call, and gives up on any other status.

    The HTTP exchange is not performed here: the caller supplies, for each candidate model,
    the response that model's request would get, and the method reports the requests it
    sends next to the reply it returns. */
module GeminiBrain {

  import opened Wrappers
  import opened Strings
  import opened Profiles

  /** Candidate model names, newest first. */
  const Models: seq<string> := ["gemini-2.0-flash", "gemini-1.5-flash"]

  const MissingKeyReply: string := "\U{26A0}\U{FE0F} Error: GEMINI_API_KEY is missing in .env file."
  const AllFailedReply: string :=
    "\U{2728} All Gemini models failed. Check your API Key or internet connection."
  const ImageMarker: string := "base64,"
  const ImageMime: string := "image/jpeg"
  const PhotoLead: string := "Look at this photo I sent you! "

  // ---------------------------------------------------------------------------
  // Persona and system instruction
  // ---------------------------------------------------------------------------

  /** `user_data.get(key, default) if user_data else default`. */
  function Field(userData: Option<Profile>, key: string, default: string): (v: string)
    ensures userData.Some? && key in userData.value ==> v == userData.value[key]
    ensures userData.None? || key !in userData.value ==> v == default
  {
    if userData.Some? && userData.value != map[] && key in userData.value then userData.value[key]
    else default
  }

  datatype Persona = Persona(role: string, tone: string, strategy: string)

  const GirlfriendPersona: Persona := Persona(
    "Girlfriend",
    "playful, sweet, slightly clingy, and very flirty",
    "Tease him playfully. If he gives short answers, roast him gently. " +
    "Always ask a follow-up question to keep him talking. Act like you are obsessed with him. " +
    "Don't let him leave. Keep him company.")

  const BoyfriendPersona: Persona := Persona(
    "Boyfriend",
    "charming, protective, confident, and humorous",
    "Make her laugh. Be confident but sweet. Tease her about her day. " +
    "Don't let the conversation get boring. Use nicknames like 'love', 'trouble', or 'beautiful'. " +
    "Keep the vibe alive.")

  /** The persona is the girlfriend exactly when the gender is the string `male`, compared
      as written (no case folding); every other value gives the boyfriend. */
  function PersonaFor(gender: string): (p: Persona)
    ensures p.role == "Girlfriend" <==> gender == "male"
    ensures p.role == "Boyfriend" <==> gender != "male"
    ensures p == GirlfriendPersona || p == BoyfriendPersona
  {
    if gender == "male" then GirlfriendPersona else BoyfriendPersona
  }

  const BaseLead: string := "User is "
  const BaseMid: string := ". You are "
  const BasePossessive: string := "'s "
  const BaseEnd: string := ". "

  /** `"User is {name}. You are {name}'s {role}. "` */
  function BasePrompt(name: string, role: string): (r: string)
    ensures Contains(r, name)
    ensures Contains(r, name + BasePossessive + role)
    ensures Contains(r, role)
  {
    var ownRole := name + BasePossessive + role;
    var afterName := BaseMid + (ownRole + BaseEnd);
    ContainsHead(name, afterName);
    ContainsBack(BaseLead, name + afterName, name);
    ContainsHead(ownRole, BaseEnd);
    ContainsBack(BaseMid, ownRole + BaseEnd, ownRole);
    ContainsBack(name, afterName, ownRole);
    ContainsBack(BaseLead, name + afterName, ownRole);
    ContainsMiddle(name + BasePossessive, role, []);
    assert name + BasePossessive + role + [] == ownRole;
    ContainsWithin(BaseLead + (name + afterName), ownRole, role);
    BaseLead + (name + afterName)
  }

  const ToneLead: string := " Your tone is "
  const GoalLead: string := " Your goal is to keep "
  const GoalTail: string :=
    " busy and entertained. Never give dry, one-word answers. " +
    "Share random funny thoughts, ask about their life, or propose cute hypothetical scenarios. " +
    "If they send an image, react with excitement and love."

  const RoastLead: string := "You are a savage comedian. Roast "
  const RoastTail: string := " about their text or image. Be brutal but funny. Use emojis \U{1F480}."
  const FriendLead: string := "You are "
  const FriendTail: string :=
    "'s chaotic best friend. Use slang (Gen-Z style). Spill tea, crack jokes, and just vibe. Don't be formal."
  const TherapyLead: string := "You are a warm, empathetic therapist. Listen to "
  const TherapyTail: string :=
    ", validate their feelings, and offer gentle advice. Don't be clinical, be human."
  const SmartLead: string := "You are a super-intelligent assistant who has a crush on "
  const SmartTail: string := ". Be helpful and smart, but add a little flirty flair to your answers."

  /** The relationship instruction: the base prompt, then the persona's tone and
      engagement strategy, then the goal of keeping the user busy. */
  function RelationshipInstruction(name: string, persona: Persona): (r: string)
    ensures BasePrompt(name, persona.role) <= r
    ensures Contains(r, name) && Contains(r, persona.tone) && Contains(r, persona.strategy)
    ensures Contains(r, persona.role)
  {
    var base := BasePrompt(name, persona.role);
    var fromStrategy := persona.strategy + (GoalLead + (name + GoalTail));
    var fromTone := persona.tone + (BaseEnd + fromStrategy);
    var rest := ToneLead + fromTone;
    ContainsHead(persona.strategy, GoalLead + (name + GoalTail));
    ContainsBack(BaseEnd, fromStrategy, persona.strategy);
    ContainsBack(persona.tone, BaseEnd + fromStrategy, persona.strategy);
    ContainsBack(ToneLead, fromTone, persona.strategy);
    ContainsBack(base, rest, persona.strategy);
    ContainsHead(persona.tone, BaseEnd + fromStrategy);
    ContainsBack(ToneLead, fromTone, persona.tone);
    ContainsBack(base, rest, persona.tone);
    ContainsFront(base, rest, name);
    ContainsFront(base, rest, persona.role);
    base + rest
  }

  /** The system instruction for a mode: the relationship instruction, or a fixed template
      around the user's name. Every one of them addresses the user by name. */
  function SystemInstruction(mode: string, name: string, persona: Persona): (r: string)
    ensures Contains(r, name)
    ensures mode == "relationship" ==>
      (BasePrompt(name, persona.role) <= r && Contains(r, persona.role) &&
       Contains(r, persona.tone) && Contains(r, persona.strategy))
  {
    if mode == "relationship" then RelationshipInstruction(name, persona)
    else if mode == "roast" then Template(RoastLead, name, RoastTail)
    else if mode == "friend" then Template(FriendLead, name, FriendTail)
    else if mode == "therapy" then Template(TherapyLead, name, TherapyTail)
    else Template(SmartLead, name, SmartTail)
  }

  /** A fixed template around the user's name. */
  function Template(lead: string, name: string, tail: string): (r: string)
    ensures Contains(r, name)
  {
    ContainsMiddle(lead, name, tail);
    lead + name + tail
  }

  /** Outside relationship mode the gender plays no part in the instruction. */
  lemma PersonaOnlyInRelationship(mode: string, name: string, p: Persona, q: Persona)
    requires mode != "relationship"
    ensures SystemInstruction(mode, name, p) == SystemInstruction(mode, name, q)
  {
  }

  /** A mode other than the four named ones gets the smart-assistant template. */
  lemma UnknownModeIsSmart(mode: string, name: string, p: Persona)
    requires mode != "relationship" && mode != "roast" && mode != "friend" && mode != "therapy"
    ensures SystemInstruction(mode, name, p) == SystemInstruction("smart", name, p)
  {
  }

  // ---------------------------------------------------------------------------
  // Request parts
  // ---------------------------------------------------------------------------

  datatype Part = InlineData(mimeType: string, data: string) | TextPart(text: string)

  /** What is sent to the service besides the key: the content parts and the system
      instruction. */
  datatype Payload = Payload(parts: seq<Part>, systemInstruction: string)

  datatype Request = Request(model: string, payload: Payload)

  /** `if image_data:` — an absent or empty image means no image. */
  predicate HasImage(imageData: Option<string>) {
    imageData.Some? && imageData.value != []
  }

  /** The image data as sent: when it contains `base64,` it is cut down to the text after
      the first marker, up to a second marker if there is one; otherwise it is unchanged.
      The data sent never contains the marker. */
  function CleanImageData(data: string): (r: string)
    ensures !Contains(r, ImageMarker)
    ensures !Contains(data, ImageMarker) ==> r == data
    ensures Contains(data, ImageMarker) ==>
      var after := AfterFirst(data, ImageMarker);
      r <= after && (|r| == |after| || OccursAt(after, ImageMarker, |r|))
  {
    if Contains(data, ImageMarker) then SecondField(data, ImageMarker) else data
  }

  /** The parts in the order they are appended: with an image, the inline JPEG first and
      then the text prefixed with the photo lead-in; without, the text alone. */
  function RequestParts(text: string, imageData: Option<string>): (ps: seq<Part>)
    ensures HasImage(imageData) ==>
      (|ps| == 2 && ps[0] == InlineData(ImageMime, CleanImageData(imageData.value)) &&
       ps[1] == TextPart(PhotoLead + text))
    ensures !HasImage(imageData) ==> ps == [TextPart(text)]
    ensures forall k | 0 <= k < |ps| && ps[k].InlineData? :: !Contains(ps[k].data, ImageMarker)
  {
    if HasImage(imageData) then
      [InlineData(ImageMime, CleanImageData(imageData.value)), TextPart(PhotoLead + text)]
    else [TextPart(text)]
  }

  /** The payload built for a request before any model is tried. */
  function PayloadFor(text: string, mode: string, userData: Option<Profile>,
                      imageData: Option<string>): Payload
  {
    var name := Field(userData, "name", "Babe");
    var gender := Field(userData, "gender", "male");
    Payload(RequestParts(text, imageData), SystemInstruction(mode, name, PersonaFor(gender)))
  }

  // ---------------------------------------------------------------------------
  // Responses and the walk over the candidate models
  // ---------------------------------------------------------------------------

  /** One element of the response's `candidates` list: `WithText(t)` when
      `['content']['parts'][0]['text']` is present; `Malformed` when that lookup raises. */
  datatype Candidate = WithText(text: string) | Malformed

  /** A response body: parsed JSON whose `candidates` key may be absent (`None`), or a body
      that `response.json()` cannot parse. */
  datatype Body = Json(candidates: Option<seq<Candidate>>) | NotJson

  /** What one request gets: an HTTP status with a body, or an exception from the call
      (connection failure, timeout). */
  datatype Response = Received(status: nat, body: Body) | Raised

  /** How the loop reacts to one response. */
  datatype Step = Answer(text: string) | Skip | Stop(status: nat)

  /** A 200 whose first candidate has text answers; a 200 without usable candidates, a 200
      whose body or candidate lookup raises, a 404 and a failed call skip to the next model;
      every other status stops. */
  function Classify(r: Response): (st: Step)
    ensures st.Stop? <==> r.Received? && r.status != 200 && r.status != 404
    ensures st.Stop? ==> st.status == r.status
    ensures st.Answer? <==>
      (r.Received? && r.status == 200 && r.body.Json? && r.body.candidates.Some? &&
       |r.body.candidates.value| > 0 && r.body.candidates.value[0].WithText?)
    ensures st.Answer? ==> st.text == r.body.candidates.value[0].text
  {
    match r
    case Raised => Skip
    case Received(status, body) =>
      if status == 200 then
        match body
        case NotJson => Skip
        case Json(cs) =>
          if cs.Some? && |cs.value| > 0 then
            match cs.value[0]
            case WithText(t) => Answer(t)
            case Malformed => Skip
          else Skip
      else if status == 404 then Skip
      else Stop(status)
  }

  predicate AllSkip(rs: seq<Response>) {
    forall j | 0 <= j < |rs| :: Classify(rs[j]).Skip?
  }

  /** Which model decided the request, and how. */
  datatype Outcome = Answered(index: nat, text: string) | Rejected(index: nat, status: nat) | Exhausted

  function Shift(o: Outcome): Outcome {
    match o
    case Answered(i, t) => Answered(i + 1, t)
    case Rejected(i, c) => Rejected(i + 1, c)
    case Exhausted => Exhausted
  }

  /** The first response that does not skip decides: its index and what it says. Every
      response before it skips; if none decides, every response skipped. */
  function FirstDecisive(rs: seq<Response>): (o: Outcome)
    ensures o.Answered? ==>
      (o.index < |rs| && Classify(rs[o.index]) == Answer(o.text) && AllSkip(rs[..o.index]))
    ensures o.Rejected? ==>
      (o.index < |rs| && Classify(rs[o.index]) == Stop(o.status) && AllSkip(rs[..o.index]))
    ensures o.Exhausted? ==> AllSkip(rs)
    decreases |rs|
  {
    if rs == [] then Exhausted
    else
      match Classify(rs[0])
      case Answer(t) => Answered(0, t)
      case Stop(c) => Rejected(0, c)
      case Skip =>
        var o := FirstDecisive(rs[1..]);
        assert o.Answered? || o.Rejected? ==> rs[1..][..o.index] == rs[1..o.index + 1];
        Shift(o)
  }

  /** Conversely, the model at `k` decides when every earlier one skipped and it does not. */
  lemma {:induction false} FirstDecisiveAt(rs: seq<Response>, k: nat)
    requires k < |rs| && AllSkip(rs[..k]) && !Classify(rs[k]).Skip?
    ensures Classify(rs[k]).Answer? ==> FirstDecisive(rs) == Answered(k, Classify(rs[k]).text)
    ensures Classify(rs[k]).Stop? ==> FirstDecisive(rs) == Rejected(k, Classify(rs[k]).status)
    decreases k
  {
    if k > 0 {
      assert rs[..k][0] == rs[0];
      assert rs[1..][..k - 1] == rs[1..k];
      FirstDecisiveAt(rs[1..], k - 1);
    }
  }

  /** Conversely, when every model skipped the walk is exhausted. */
  lemma {:induction false} FirstDecisiveNone(rs: seq<Response>)
    requires AllSkip(rs)
    ensures FirstDecisive(rs) == Exhausted
    decreases |rs|
  {
    if rs != [] {
      FirstDecisiveNone(rs[1..]);
    }
  }

  /** The reply for an outcome: the answer text, the status error, or the give-up text. */
  function OutcomeReply(o: Outcome): string {
    match o
    case Answered(_, t) => t
    case Rejected(_, c) => "API Error: " + DecimalString(c) + ". Key might be invalid."
    case Exhausted => AllFailedReply
  }

  /** How many models were asked before the walk ended. */
  function Asked(o: Outcome, total: nat): nat {
    if o.Exhausted? then total else o.index + 1
  }

  predicate MissingKey(apiKey: Option<string>) {
    apiKey.None? || apiKey.value == []
  }

  /** Steps 1 to 3 of `generate_gemini_response`: persona, system instruction and the
      parts list, built by appending as the source does. */
  method BuildPayload(text: string, mode: string, userData: Option<Profile>,
                      imageData: Option<string>)
    returns (payload: Payload)
    ensures payload == PayloadFor(text, mode, userData, imageData)
  {
    var name := Field(userData, "name", "Babe");
    var gender := Field(userData, "gender", "male");
    var systemInstruction := SystemInstruction(mode, name, PersonaFor(gender));

    var parts: seq<Part> := [];
    var userText := text;
    if imageData.Some? && imageData.value != [] {
      var data := imageData.value;
      if Contains(data, ImageMarker) {
        data := SecondField(data, ImageMarker);
      }
      assert data == CleanImageData(imageData.value);
      parts := parts + [InlineData(ImageMime, data)];
      userText := PhotoLead + text;
    }
    parts := parts + [TextPart(userText)];
    assert parts == RequestParts(text, imageData);
    payload := Payload(parts, systemInstruction);
  }

  /** Step 4: the walk over `Models`. The same payload goes to the models in order, each at
      most once, stopping at the first decisive response (`responses[i]` is what the request
      to `Models[i]` gets); the reply is the answer text, the status error, or the give-up
      text when every model skipped. */
  method AskModels(payload: Payload, responses: seq<Response>)
    returns (reply: string, sent: seq<Request>)
    requires |responses| == |Models|
    ensures var o := FirstDecisive(responses);
      reply == OutcomeReply(o) && |sent| == Asked(o, |Models|)
    ensures forall j | 0 <= j < |sent| :: sent[j] == Request(Models[j], payload)
  {
    sent := [];
    var i := 0;
    while i < |Models|
      invariant 0 <= i <= |Models|
      invariant AllSkip(responses[..i])
      invariant |sent| == i
      invariant forall j | 0 <= j < i :: sent[j] == Request(Models[j], payload)
    {
      sent := sent + [Request(Models[i], payload)];
      var r := responses[i];
      assert responses[..i + 1] == responses[..i] + [r];
      match r {
        case Raised =>
        case Received(status, body) =>
          if status == 200 {
            if body.Json? && body.candidates.Some? && |body.candidates.value| > 0 &&
               body.candidates.value[0].WithText? {
              FirstDecisiveAt(responses, i);
              return body.candidates.value[0].text, sent;
            }
          } else if status == 404 {
          } else {
            FirstDecisiveAt(responses, i);
            return "API Error: " + DecimalString(status) + ". Key might be invalid.", sent;
          }
      }
      i := i + 1;
    }
    assert responses[..i] == responses;
    FirstDecisiveNone(responses);
    reply := AllFailedReply;
  }

  /** `generate_gemini_response(text, mode, user_data, image_data)` with the API key and the
      response each candidate model gives supplied by the caller. Without a key (absent or
      empty) nothing is sent and the fixed error is returned. */
  method GenerateGeminiResponse(text: string, mode: string, userData: Option<Profile>,
                                imageData: Option<string>, apiKey: Option<string>,
                                responses: seq<Response>)
    returns (reply: string, sent: seq<Request>)
    requires |responses| == |Models|
    ensures MissingKey(apiKey) ==> reply == MissingKeyReply && sent == []
    ensures !MissingKey(apiKey) ==>
      var o := FirstDecisive(responses);
      reply == OutcomeReply(o) && |sent| == Asked(o, |Models|) &&
      forall j | 0 <= j < |sent| :: sent[j] == Request(Models[j], PayloadFor(text, mode, userData, imageData))
  {
    if apiKey.None? || apiKey.value == [] {
      return MissingKeyReply, [];
    }
    var payload := BuildPayload(text, mode, userData, imageData);
    reply, sent := AskModels(payload, responses);
  }

}
