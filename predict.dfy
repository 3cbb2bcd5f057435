/** The local reply path of `DualBot`: one model slot that holds at most one mode's
    model and tokenizer, emptied before every load (`_load_specific_model`), and
    `generate`, which maps the requested mode to a slot, loads it, builds the prompt for
    the mode and cleans the decoded text.

    Loading weights, tokenizing, sampling and decoding are not performed here: how the load
    ends, which log line raises, and the decoded text (or that generation raised), are
    supplied by the caller. */
module Predict {

  import opened Wrappers
  import opened Strings
  import opened Profiles
  import GeminiBrain

  const HfRepoId: string := "Delstarford/uploader"
  const GenericModel: string := "distilgpt2"

  const RebootingReply: string := "My brain is rebooting. Try 'Smart Mode'!"
  const DizzyReply: string := "I'm dizzy (Memory Full). Please use '\U{2728} Smart' Mode!"
  const LostReply: string := "I lost my train of thought."

  // ---------------------------------------------------------------------------
  // Model sources and the slot
  // ---------------------------------------------------------------------------

  /** Where a mode's weights and tokenizer come from: a subfolder of the project's
      repository, or a named pretrained model. */
  datatype Source = RepoSubfolder(repo: string, folder: string) | Pretrained(name: string)

  /** A loaded model and a loaded tokenizer, identified by their source. */
  datatype ModelHandle = ModelHandle(source: Source)
  datatype TokenizerHandle = TokenizerHandle(source: Source)

  /** Modes with a fine-tuned model of their own. */
  predicate HasOwnModel(mode: string) {
    mode == "roast" || mode == "relationship"
  }

  /** Roast and relationship load from `"{mode}_model"` of the repository; every other
      mode loads the generic model. There is no second attempt from another source. */
  function SourceFor(mode: string): (src: Source)
    ensures src.RepoSubfolder? <==> HasOwnModel(mode)
    ensures src.RepoSubfolder? ==> src.repo == HfRepoId && src.folder == mode + "_model"
    ensures src.Pretrained? ==> src.name == GenericModel
  {
    if HasOwnModel(mode) then RepoSubfolder(HfRepoId, mode + "_model") else Pretrained(GenericModel)
  }

  /** How the download-and-store block of `_load_specific_model` ends: it completes; a
      download raises before anything is stored; setting the pad token raises after the
      pair was stored but before `current_mode` is set; or the success log line raises after
      `current_mode` was set. */
  datatype LoadOutcome = Loaded | FailedBeforeStore | FailedAfterStore | FailedAfterSwitch

  /** Which log line of `_load_specific_model` raises when it is reached, letting the
      exception escape the method: none, the switching line printed before the slot is
      emptied, or the failure line printed by the exception handler (before it resets
      `current_mode`). */
  datatype LogFault = Quiet | SwitchLogRaises | FailureLogRaises

  /** The three fields of `DualBot` as a value. */
  datatype Slot = Slot(currentMode: Option<string>, models: map<string, ModelHandle>,
                       tokenizers: map<string, TokenizerHandle>)

  /** The slot after a load, and whether an exception escaped the load. */
  datatype LoadResult = LoadResult(slot: Slot, raised: bool)

  /** The memory-budget invariant: the two dictionaries have the same keys, at most one of
      them; when `current_mode` is set it names the resident mode; every resident pair
      came from its mode's source. */
  predicate SlotOk(s: Slot) {
    s.models.Keys == s.tokenizers.Keys &&
    |s.models.Keys| <= 1 &&
    (s.currentMode.Some? ==> s.models.Keys == {s.currentMode.value}) &&
    forall m | m in s.models ::
      s.models[m] == ModelHandle(SourceFor(m)) && s.tokenizers[m] == TokenizerHandle(SourceFor(m))
  }

  /** The slot emptied: both dictionaries cleared and `current_mode` reset. */
  const Evicted: Slot := Slot(None, map[], map[])

  /** The pair a load of `mode` stores, with the given `current_mode`. */
  function Resident(mode: string, current: Option<string>): Slot {
    Slot(current, map[mode := ModelHandle(SourceFor(mode))],
         map[mode := TokenizerHandle(SourceFor(mode))])
  }

  /** The hot path: `mode` is current and resident, so the load returns at once. */
  predicate Hot(s: Slot, mode: string) {
    s.currentMode == Some(mode) && mode in s.models
  }

  /** The load gets past the switching log line and empties the slot. */
  predicate Attempted(s: Slot, mode: string, fault: LogFault) {
    !Hot(s, mode) && !fault.SwitchLogRaises?
  }

  /** The slot at the point the download-and-store block ends, before any handler runs. */
  function AtBlockEnd(mode: string, outcome: LoadOutcome): Slot {
    match outcome
    case Loaded => Resident(mode, Some(mode))
    case FailedBeforeStore => Evicted
    case FailedAfterStore => Resident(mode, None)
    case FailedAfterSwitch => Resident(mode, Some(mode))
  }

  /** The download-and-store block and its exception handler, run on an emptied slot. A
      complete block leaves exactly `mode` resident and current. A failed one leaves
      nothing resident if it failed before storing and the pair otherwise; the handler
      unsets `current_mode` unless its log line raises, which escapes. */
  function Attempt(mode: string, outcome: LoadOutcome, handlerRaises: bool): (t: LoadResult)
    ensures SlotOk(t.slot)
    ensures t.raised <==> !outcome.Loaded? && handlerRaises
    ensures t.slot.currentMode.Some? ==> t.slot.currentMode == Some(mode)
    ensures t.slot.currentMode == Some(mode) <==> outcome.Loaded? || (outcome.FailedAfterSwitch? && t.raised)
    ensures t.slot.models == map[] <==> outcome.FailedBeforeStore?
    ensures t.slot.models != map[] ==> t.slot.models.Keys == {mode}
  {
    var atEnd := AtBlockEnd(mode, outcome);
    if outcome.Loaded? then LoadResult(atEnd, false)
    else if handlerRaises then LoadResult(atEnd, true)
    else LoadResult(atEnd.(currentMode := None), false)
  }

  /** `_load_specific_model(mode)`. The hot path changes nothing and cannot raise. A
      raising switching line escapes with the slot untouched. Otherwise the slot is emptied
      before the load: a complete load leaves exactly `mode` resident and current; a failed
      one leaves nothing resident if it failed before storing and the pair otherwise, and
      the handler unsets `current_mode` unless its own log line raises. Whatever happens,
      the invariant holds and only the requested mode can have become resident. */
  function LoadStep(s: Slot, mode: string, outcome: LoadOutcome, fault: LogFault): (t: LoadResult)
    requires SlotOk(s)
    ensures SlotOk(t.slot)
    ensures Hot(s, mode) ==> t == LoadResult(s, false)
    ensures !Hot(s, mode) && fault.SwitchLogRaises? ==> t == LoadResult(s, true)
    ensures Attempted(s, mode, fault) ==>
      (t.raised <==> !outcome.Loaded? && fault.FailureLogRaises?) &&
      (t.slot.currentMode == Some(mode) <==> outcome.Loaded? || (outcome.FailedAfterSwitch? && t.raised)) &&
      (t.slot.models == map[] <==> outcome.FailedBeforeStore?) &&
      (t.slot.models != map[] ==> t.slot.models.Keys == {mode})
    ensures t.slot != s ==> t.slot.currentMode.Some? ==> t.slot.currentMode == Some(mode)
  {
    if Hot(s, mode) then LoadResult(s, false)
    else if fault.SwitchLogRaises? then LoadResult(s, true)
    else Attempt(mode, outcome, fault.FailureLogRaises?)
  }

  /** When the load returns normally, the target mode is resident exactly when the hot
      path was taken or the load did not fail before storing; the load raises exactly when
      a log line that is reached raises. */
  lemma ResidentAfterLoad(s: Slot, mode: string, outcome: LoadOutcome, fault: LogFault)
    requires SlotOk(s)
    ensures var t := LoadStep(s, mode, outcome, fault);
      (t.raised <==>
        (!Hot(s, mode) && (fault.SwitchLogRaises? || (fault.FailureLogRaises? && !outcome.Loaded?)))) &&
      (!t.raised ==> (mode in t.slot.models <==> Hot(s, mode) || !outcome.FailedBeforeStore?))
  {
  }

  /** Loading the mode that was just loaded without an exception takes the hot path. */
  lemma ReloadIsHot(s: Slot, mode: string, fault: LogFault, outcome: LoadOutcome, fault2: LogFault)
    requires SlotOk(s)
    ensures var t := LoadStep(s, mode, Loaded, fault);
      !t.raised ==> LoadStep(t.slot, mode, outcome, fault2) == LoadResult(t.slot, false)
  {
  }

  class DualBot {
    var currentMode: Option<string>
    var models: map<string, ModelHandle>
    var tokenizers: map<string, TokenizerHandle>

    function State(): Slot
      reads this
    {
      Slot(currentMode, models, tokenizers)
    }

    ghost predicate Valid()
      reads this
    {
      SlotOk(State())
    }

    /** `DualBot()`: no mode loaded. */
    constructor ()
      ensures Valid() && State() == Evicted
    {
      models := map[];
      tokenizers := map[];
      currentMode := None;
    }

    /** The downloads for `mode` from its source. They are only ever attempted on an
        empty slot: eviction comes before loading. */
    method Fetch(mode: string, outcome: LoadOutcome)
      returns (pair: Option<(ModelHandle, TokenizerHandle)>)
      requires models == map[] && tokenizers == map[] && currentMode.None?
      ensures pair.Some? <==> !outcome.FailedBeforeStore?
      ensures pair.Some? ==> pair.value == (ModelHandle(SourceFor(mode)), TokenizerHandle(SourceFor(mode)))
    {
      if outcome.FailedBeforeStore? {
        pair := None;
      } else {
        var src := SourceFor(mode);
        pair := Some((ModelHandle(src), TokenizerHandle(src)));
      }
    }

    /** `_load_specific_model(mode)`, with how the download-and-store block ends and which
        log line raises as parameters; `raised` reports an exception escaping the method. */
    method LoadSpecificModel(mode: string, outcome: LoadOutcome, fault: LogFault)
      returns (raised: bool)
      requires Valid()
      modifies this
      ensures Valid()
      ensures LoadResult(State(), raised) == LoadStep(old(State()), mode, outcome, fault)
    {
      if currentMode == Some(mode) && mode in models {
        return false;
      }
      if fault.SwitchLogRaises? {
        return true;
      }

      // memory cleanup first
      models := map[];
      tokenizers := map[];
      currentMode := None;

      raised := LoadIntoEmptySlot(mode, outcome, fault.FailureLogRaises?);
    }

    /** The `try` block of `_load_specific_model` and its handler, on the emptied slot. */
    method LoadIntoEmptySlot(mode: string, outcome: LoadOutcome, handlerRaises: bool)
      returns (raised: bool)
      requires State() == Evicted
      modifies this
      ensures LoadResult(State(), raised) == Attempt(mode, outcome, handlerRaises)
    {
      var failed := false;
      var pair := Fetch(mode, outcome);
      if pair.None? {
        failed := true;
      } else {
        models := models[mode := pair.value.0];
        tokenizers := tokenizers[mode := pair.value.1];
        if outcome.FailedAfterStore? {
          failed := true;
        } else {
          currentMode := Some(mode);
          failed := outcome.FailedAfterSwitch?;
        }
      }

      assert State() == AtBlockEnd(mode, outcome);

      // the exception handler
      raised := false;
      if failed {
        if handlerRaises {
          return true;
        }
        currentMode := None;
      }
    }

    /** `generate(text, mode, user_data)`. `outcome` and `fault` say how loading the target
        mode goes; `decoded` is the decoded output of the model, `None` when tokenizing,
        sampling or decoding raised. */
    method Generate(text: string, mode: string, userData: Option<Profile>,
                    outcome: LoadOutcome, fault: LogFault, decoded: Option<string>)
      returns (reply: string)
      requires Valid()
      modifies this
      ensures Valid()
      ensures var step := LoadStep(old(State()), TargetMode(mode), outcome, fault);
        State() == step.slot &&
        reply == LocalReply(text, mode, userData, step.raised, TargetMode(mode) in step.slot.models,
                            decoded)
    {
      var name := UserName(userData);
      var targetMode := TargetMode(mode);

      var raised := LoadSpecificModel(targetMode, outcome, fault);
      if raised {
        return RebootingReply;
      }

      if targetMode !in models {
        return DizzyReply;
      }
      // the pair the prompt would be tokenized with and the model run on
      var tokenizer := tokenizers[targetMode];
      var model := models[targetMode];

      var inputText := Prompt(mode, name, UserGender(userData), text);
      if decoded.None? {
        return LostReply;
      }
      reply := Sanitize(decoded.value, inputText, name);
    }
  }

  // ---------------------------------------------------------------------------
  // generate: target mode, defaults, prompt, reply
  // ---------------------------------------------------------------------------

  /** Only roast and relationship have a slot of their own; every other mode uses the
      friend slot (loaded from the generic model). */
  function TargetMode(mode: string): (t: string)
    ensures t == mode <==> HasOwnModel(mode) || mode == "friend"
    ensures HasOwnModel(mode) ==> t == mode
    ensures !HasOwnModel(mode) ==> t == "friend"
    ensures SourceFor(t) == SourceFor(mode)
  {
    if HasOwnModel(mode) then mode else "friend"
  }

  /** The profile used when `user_data` is absent or empty. (Its `age` entry is not
      represented: nothing here reads it.) */
  const DefaultProfile: Profile := map["name" := "User", "gender" := "male"]

  function EffectiveProfile(userData: Option<Profile>): (p: Profile)
    ensures userData.None? || userData.value == map[] ==> p == DefaultProfile
    ensures userData.Some? && userData.value != map[] ==> p == userData.value
  {
    if userData.None? || userData.value == map[] then DefaultProfile else userData.value
  }

  /** `user_data.get('name', 'User')` after the default. */
  function UserName(userData: Option<Profile>): (name: string)
    ensures userData.Some? && "name" in userData.value ==> name == userData.value["name"]
    ensures (userData.None? || "name" !in userData.value) ==> name == "User"
  {
    var p := EffectiveProfile(userData);
    if "name" in p then p["name"] else "User"
  }

  /** `user_data.get('gender', 'male').lower()` after the default. */
  function UserGender(userData: Option<Profile>): (g: string)
    ensures userData.Some? && "gender" in userData.value ==> g == Lower(userData.value["gender"])
    ensures (userData.None? || "gender" !in userData.value) ==> g == "male"
  {
    var p := EffectiveProfile(userData);
    Lower(if "gender" in p then p["gender"] else "male")
  }

  const RelationshipOpen: string := "Instruction: Act as "
  const RelationshipTone: string := "'s flirty and sweet "
  const RoleEnd: string := ".\n"
  const Colon: string := ":"
  const SpeakerMark: string := ": "
  const NewLine: string := "\n"
  const RoastOpen: string := "Input: "
  const RoastLabel: string := "Roast:"
  const FriendOpen: string := "Context: Best friends chatting.\n"
  const FriendLabel: string := "Bestie:"

  /** The partner role in a relationship prompt: the girlfriend exactly when the lowercased
      gender is `male`. */
  function LocalRole(gender: string): (role: string)
    ensures role == "Girlfriend" <==> gender == "male"
    ensures role == "Girlfriend" || role == "Boyfriend"
  {
    if gender == "male" then "Girlfriend" else "Boyfriend"
  }

  /** The user's turn, `"{name}: {text}"`. */
  function UserLine(name: string, text: string): (line: string)
    ensures Contains(line, text)
  {
    ContainsMiddle(name + SpeakerMark, text, []);
    assert name + SpeakerMark + text + [] == name + SpeakerMark + text;
    name + SpeakerMark + text
  }

  /** `"{head}{name}: {text}\n{cue}"`: the user's turn followed by the cue the model
      is to continue from. */
  function Dialogue(head: string, name: string, text: string, cue: string): (p: string)
    ensures Contains(p, UserLine(name, text))
    ensures Contains(p, text)
    ensures EndsWith(p, NewLine + cue)
  {
    var line := UserLine(name, text);
    var tail := NewLine + cue;
    ContainsHead(line, tail);
    ContainsBack(head, line + tail, line);
    ContainsFront(line, tail, text);
    ContainsBack(head, line + tail, text);
    EndsWithBack(line, tail, tail);
    EndsWithBack(head, line + tail, tail);
    head + (line + tail)
  }

  /** `"Instruction: Act as {name}'s flirty and sweet {role}.\n{name}: {text}\n{role}:"`. */
  function RelationshipPrompt(name: string, role: string, text: string): (p: string)
    ensures RelationshipOpen + name <= p
    ensures Contains(p, UserLine(name, text))
    ensures Contains(p, text)
    ensures EndsWith(p, NewLine + (role + Colon))
  {
    var head := RelationshipOpen + (name + (RelationshipTone + (role + RoleEnd)));
    assert head == (RelationshipOpen + name) + (RelationshipTone + (role + RoleEnd));
    Dialogue(head, name, text, role + Colon)
  }

  /** `"Input: {text}\nRoast:"`. */
  function RoastPrompt(text: string): (p: string)
    ensures RoastOpen + text <= p
    ensures Contains(p, text)
    ensures EndsWith(p, NewLine + RoastLabel)
  {
    var tail := NewLine + RoastLabel;
    EndsWithBack(RoastOpen + text, tail, tail);
    ContainsMiddle(RoastOpen, text, tail);
    RoastOpen + text + tail
  }

  /** The prompt for a mode (the branch tests the requested mode). Relationship casts the
      model as the partner whose role the lowercased gender picks; roast asks for a roast of
      the text; every other mode is a chat between best friends. Each prompt carries the
      user's text, and all but roast carry the user's turn `"{name}: {text}"`. */
  function Prompt(mode: string, name: string, gender: string, text: string): (p: string)
    ensures Contains(p, text)
    ensures mode != "roast" ==> Contains(p, UserLine(name, text))
    ensures mode == "relationship" ==>
      RelationshipOpen + name <= p && EndsWith(p, NewLine + (LocalRole(gender) + Colon))
    ensures mode == "roast" ==> RoastOpen + text <= p && EndsWith(p, NewLine + RoastLabel)
    ensures mode != "relationship" && mode != "roast" ==>
      FriendOpen <= p && EndsWith(p, NewLine + FriendLabel)
  {
    if mode == "relationship" then RelationshipPrompt(name, LocalRole(gender), text)
    else if mode == "roast" then RoastPrompt(text)
    else
      ContainsHead(FriendOpen, UserLine(name, text) + (NewLine + FriendLabel));
      Dialogue(FriendOpen, name, text, FriendLabel)
  }

  /** Branching on the requested mode or on its slot gives the same prompt. */
  lemma PromptFollowsSlot(mode: string, name: string, gender: string, text: string)
    ensures Prompt(mode, name, gender, text) == Prompt(TargetMode(mode), name, gender, text)
  {
  }

  /** The cleaning chain applied to the decoded text, in order: drop every echo of the
      prompt, strip, keep what precedes the first `"{name}:"`, delete runs of two or more
      `_`/`*`, strip. The result has no surrounding whitespace and no two adjacent filler
      characters, and keeps every non-filler character of the cut text. */
  function Sanitize(decoded: string, inputText: string, name: string): (r: string)
    ensures Trimmed(r)
    ensures NoFillerPairs(r)
    ensures |r| <= |decoded|
  {
    var cut := Before(Strip(RemoveAll(decoded, inputText)), name + ":");
    var cleaned := DeleteFillerRuns(cut);
    var r := Strip(cleaned);
    NoFillerPairsSlice(cleaned, LeadingSpaces(cleaned), LeadingSpaces(cleaned) + |r|);
    r
  }

  /** The reply of `generate`, given whether the load raised, whether the slot holds the
      target mode afterwards, and the decoded output. */
  function LocalReply(text: string, mode: string, userData: Option<Profile>, loadRaises: bool,
                      resident: bool, decoded: Option<string>): (reply: string)
    ensures loadRaises ==> reply == RebootingReply
    ensures !loadRaises && !resident ==> reply == DizzyReply
    ensures !loadRaises && resident && decoded.None? ==> reply == LostReply
    ensures !loadRaises && resident && decoded.Some? ==> Trimmed(reply) && NoFillerPairs(reply)
  {
    if loadRaises then RebootingReply
    else if !resident then DizzyReply
    else if decoded.None? then LostReply
    else
      var name := UserName(userData);
      Sanitize(decoded.value, Prompt(mode, name, UserGender(userData), text), name)
  }

  /** A model that echoes the prompt and then writes a continuation without another copy
      of the prompt: the echo is dropped, and the reply is the stripped continuation cut
      before the user's label. */
  lemma EchoedPromptIsDropped(inputText: string, continuation: string, name: string)
    requires inputText != [] && !Contains(continuation, inputText)
    ensures Sanitize(inputText + continuation, inputText, name) ==
      Strip(DeleteFillerRuns(Before(Strip(continuation), name + ":")))
  {
    RemoveEcho(inputText, continuation);
  }

  /** The cloud and local persona rules disagree on letter case: for the gender `Male` the
      cloud instruction plays the boyfriend while the local relationship prompt plays the
      girlfriend, because only the local path lowercases first. */
  lemma RoleRulesDifferOnCase()
    ensures GeminiBrain.PersonaFor("Male").role == "Boyfriend"
    ensures LocalRole(Lower("Male")) == "Girlfriend"
  {
    assert Lower("Male") == [LowerChar('M')] + Lower("ale");
  }

}
