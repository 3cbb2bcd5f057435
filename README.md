# Companion chat bot: reply generation

This project models the two reply paths of a companion chat bot.

**Cloud path** (`generate_gemini_response`, module `GeminiBrain`):
- The persona (girlfriend or boyfriend, with its tone and engagement strategy) is chosen from the user's gender.
- The system instruction is chosen by mode: relationship, roast, friend, therapy, or the smart-assistant fallback.
- The request parts are an optional inline JPEG, with any `base64,` header cut off, followed by the text.
- The candidate models are tried in order until one gives a decisive response.

**Local path** (`DualBot`, module `Predict`):
- A single model slot holds at most one mode's model and tokenizer.
- Loading a mode first evicts whatever is resident.
- `generate` maps the requested mode to a slot, applies the profile defaults and returns a fixed reply when something fails.
- It builds the prompt for the mode and cleans the decoded text.

The Python string operations these paths use are modelled in module `Strings`:
- `str.replace(p, "")`
- `str.split(sep)[0]` and `str.split(sep)[1]`
- `str.strip()`, over Python's whitespace set
- `re.sub(r'[_\*]{2,}', '', s)`
- `str.lower()`, ASCII letters only
- `str(int)`

Module `Profiles` holds the user-profile type; module `Wrappers` holds `Option`.

External effects are parameters:
- the API key;
- the response each candidate model gets;
- how a load attempt ends, and which of its log lines raises;
- the decoded output of the local model, or `None` when generation raised.

`GeminiBrain.GenerateGeminiResponse` also returns the requests it would send. This makes "no request without a key" and "each model at most once, in order" visible in its contract.

## Model

| member | source | states |
|---|---|---|
| GeminiBrain.GenerateGeminiResponse | src/gemini_brain.py:15-115 | without a key (absent or empty) the reply is the fixed missing-key error and no request is sent; otherwise the same payload goes to the models in order, and the reply and the number of requests are those of the first decisive response |
| GeminiBrain.Field | src/gemini_brain.py:20-21 | a profile value is used when the profile has the key; an absent profile or a missing key gives the default (`Babe` for the name, `male` for the gender) |
| GeminiBrain.PersonaFor | src/gemini_brain.py:24-43 | the role is Girlfriend exactly when the gender is the string `male`, compared without case folding, and Boyfriend for every other value; the persona is one of the two fixed ones |
| GeminiBrain.BasePrompt | src/gemini_brain.py:45 | the base prompt names the user and contains `{name}'s {role}`, so it carries the persona's role |
| GeminiBrain.RelationshipInstruction | src/gemini_brain.py:48-54 | the relationship instruction starts with the base prompt and contains the user's name and the persona's role, tone and strategy |
| GeminiBrain.SystemInstruction | src/gemini_brain.py:45-62 | every mode's instruction contains the user's name; relationship mode adds the base prompt and the persona's role, tone and strategy |
| GeminiBrain.Template | src/gemini_brain.py:55-62 | each fixed template contains the user's name |
| GeminiBrain.CleanImageData | src/gemini_brain.py:68-69 | data with the `base64,` marker becomes the text after the first marker, up to any second one; data without the marker is unchanged; the result never contains the marker |
| GeminiBrain.RequestParts | src/gemini_brain.py:65-79 | with an image, exactly two parts: the JPEG inline part with the cleaned data, then the text with the photo lead-in; without an image, exactly one text part holding the original text; no inline part contains the marker |
| GeminiBrain.BuildPayload | src/gemini_brain.py:20-84 | the payload built by appending is the one the parts and instruction rules define |
| GeminiBrain.Classify | src/gemini_brain.py:99-113 | a 200 whose first candidate has text answers with that text; any status other than 200 and 404 stops with that status; everything else skips (a 200 without usable candidates, a body or candidate lookup that raises, a 404, a failed call) |
| GeminiBrain.FirstDecisive | src/gemini_brain.py:87-115 | the answering or rejecting model is the first one that does not skip, and every model before it skipped; exhaustion means every model skipped |
| GeminiBrain.FirstDecisiveAt | src/gemini_brain.py:87-113 | conversely, a model that does not skip, after models that all skipped, decides the outcome |
| GeminiBrain.FirstDecisiveNone | src/gemini_brain.py:115 | conversely, when every model skips the walk is exhausted |
| GeminiBrain.AskModels | src/gemini_brain.py:87-115 | the loop sends the payload to `Models[0]`, `Models[1]`, … and stops after the first decisive response; the reply is its text, the `API Error: {status}` message, or the all-failed message |
| GeminiBrain.PersonaOnlyInRelationship | src/gemini_brain.py:55-62 | outside relationship mode the gender does not affect the instruction |
| GeminiBrain.UnknownModeIsSmart | src/gemini_brain.py:61-62 | any mode other than the four named ones gets the smart template |
| Predict.SourceFor | src/predict.py:44-55 | roast and relationship load from the `{mode}_model` subfolder of the project repository; every other mode loads `distilgpt2`; there is no fallback source |
| Predict.LoadStep | src/predict.py:29-65 | hot path: a current, resident mode changes nothing and raises nothing; a raising switching log line escapes with the slot untouched; otherwise the slot is emptied first and the load ends as `Attempt` says; the at-most-one-resident invariant is preserved |
| Predict.Attempt | src/predict.py:41-65 | on an emptied slot, a complete load leaves exactly that mode resident and current; a failed load leaves nothing resident if it failed before storing and the pair otherwise; the handler unsets `current_mode`, unless its own log line raises, which escapes (leaving `current_mode` set only if it had been set) |
| Predict.ResidentAfterLoad | src/predict.py:29-65 | the load raises exactly when it is not hot and a reached log line raises; when it returns normally, the mode is resident exactly when the hot path was taken or the load did not fail before storing |
| Predict.ReloadIsHot | src/predict.py:30-31 | loading a mode that was just loaded without an exception changes nothing |
| Predict.DualBot.constructor | src/predict.py:25-27 | a new bot has no current mode and empty model and tokenizer maps |
| Predict.DualBot.Fetch | src/predict.py:44-58 | downloads happen only on an emptied slot and yield the pair from the mode's source unless they raise |
| Predict.DualBot.LoadSpecificModel | src/predict.py:29-65 | the new fields and whether an exception escapes are exactly `LoadStep` of the old fields, and the slot invariant is kept |
| Predict.DualBot.LoadIntoEmptySlot | src/predict.py:41-65 | on the emptied slot, the new fields and the escaping exception are exactly `Attempt` |
| Predict.DualBot.Generate | src/predict.py:67-115 | the new state is the load step of the target mode, and the reply is the one `LocalReply` defines from whether the load raised and whether the target is resident afterwards |
| Predict.TargetMode | src/predict.py:71 | roast and relationship keep their own slot; every other mode maps to `friend`, which uses the same source as the mode itself |
| Predict.EffectiveProfile | src/predict.py:68 | an absent or empty profile becomes the default profile; any other profile is kept |
| Predict.UserName | src/predict.py:69 | the profile's name, or `User` when there is none |
| Predict.UserGender | src/predict.py:86 | the lowercased profile gender, or `male` when there is none |
| Predict.LocalRole | src/predict.py:88 | Girlfriend exactly when the lowercased gender is `male`, Boyfriend otherwise |
| Predict.UserLine | src/predict.py:90-94 | the user's turn contains the user's text |
| Predict.Dialogue | src/predict.py:90-94 | a dialogue prompt contains the user's turn and text, and ends on the speaker cue |
| Predict.RelationshipPrompt | src/predict.py:88-90 | the prompt opens with the act-as instruction naming the user, contains the user's turn and ends on `\n{role}:` |
| Predict.RoastPrompt | src/predict.py:92 | the prompt is the input line with the text and ends on `\nRoast:` |
| Predict.Prompt | src/predict.py:86-94 | the prompt is chosen by the requested mode; each prompt contains the text; relationship and the best-friends prompt contain the user's turn and end on the partner's or the friend's cue |
| Predict.PromptFollowsSlot | src/predict.py:86-94 | branching on the requested mode or on its target mode gives the same prompt |
| Predict.Sanitize | src/predict.py:107-111 | the cleaned reply has no surrounding whitespace, no two adjacent `_`/`*` characters, and is no longer than the decoded text |
| Predict.LocalReply | src/predict.py:73-115 | a load that raises gives the rebooting reply; a non-resident target gives the memory-full reply; a generation that raises gives the lost-thought reply; otherwise the reply is sanitised |
| Predict.EchoedPromptIsDropped | src/predict.py:107-109 | an output that echoes the prompt, followed by text without another copy of it, is cleaned as that text alone |
| Predict.RoleRulesDifferOnCase | src/predict.py:86-88 | for gender `Male`, the local prompt plays the girlfriend, while the cloud persona (which does not lowercase) plays the boyfriend |
| Strings.RemoveAll | src/predict.py:108 | deleting occurrences never lengthens a string, and a string without the pattern is unchanged |
| Strings.RemoveAllCutsFirst | src/predict.py:108 | when the pattern occurs, the result is the text before its first occurrence followed by the deletion applied to the text after it (the left-to-right, non-overlapping scan) |
| Strings.RemoveEcho | src/predict.py:108 | a leading copy of the pattern is deleted along with the rest |
| Strings.Before | src/predict.py:109 | the first field is a prefix that contains no separator, and no occurrence of the separator starts inside it; when the string contains a separator, one starts right after the field; otherwise the field is the whole string |
| Strings.AfterFirst | src/gemini_brain.py:69 | the string is the first field, the separator and the remainder |
| Strings.SecondField | src/gemini_brain.py:69 | the second field is a prefix of the remainder after the first separator, ends where the remainder ends or at the next separator, and does not contain the separator |
| Strings.Strip | src/predict.py:108 | the result has no leading or trailing whitespace and is the input with its leading and trailing whitespace removed |
| Strings.StripUnique | src/predict.py:108 | any whitespace-free core padded only by whitespace is the strip of the string |
| Strings.StripIdempotent | src/predict.py:111 | stripping twice is stripping once |
| Strings.DeleteFillerRuns | src/predict.py:110 | no two adjacent `_`/`*` characters remain, the non-filler characters are kept in order, and the result is no longer than the input |
| Strings.DeleteFillerRunsKeepsSurvivors | src/predict.py:110 | the result is exactly the characters that survive, in order: a non-filler character, or a filler character with no filler neighbour (a lone `_` or `*` stays) |
| Strings.DeleteFillerRunsFixes | src/predict.py:110 | a string without adjacent filler characters is unchanged |
| Strings.DeleteFillerRunsIdempotent | src/predict.py:110 | applying the deletion twice is applying it once |
| Strings.Lower | src/predict.py:86 | each character is lowercased in place, and the length is kept |
| Strings.DecimalString | src/gemini_brain.py:109 | a status renders as a non-empty string of digits, with no leading zero except for 0 |
| Strings.DecimalRoundTrip | src/gemini_brain.py:109 | reading the rendered digits back gives the status |

## Left out

- The HTTP call is not modelled: `requests.post`, the URL and key formatting, the JSON encoding, the 15-second timeout and the logging. Each model's response is a parameter.
- Reading `.env` and `GEMINI_API_KEY` from the environment is not modelled. The key is a parameter.
- The torch and transformers work is not modelled: library import, thread limit, device, downloading weights, `pad_token`, tokenizing, sampling at temperature 0.9, decoding and `gc.collect`. The decoded text, or its absence when generation raises, is a parameter. So is how a load attempt ends.
- Which log line of `_load_specific_model` raises is a parameter, as is where the load block fails. Exceptions from the dictionary operations and the garbage collector are not modelled.
- Profile values that are not strings are not represented. The integer `age` of the local default profile is never read. A non-string `gender` makes `.lower()` at src/predict.py:86 raise out of `generate`; that path is not modelled, because profile values are strings here.
- Strings.Lower: lowercases ASCII letters only. The result is compared only with `male`.
- Logging (`print`) and the web routing around `generate` are not part of this model.
- Concurrent use of the shared slot is not modelled. The bot is used sequentially.
