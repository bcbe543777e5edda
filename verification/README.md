# SalesAI call analysis — a Dafny model

SalesAI is a sales-call co-pilot. It transcribes a customer's speech, works
out the intent, sentiment and entities of each utterance, and suggests the
agent's next question. The analysis comes from a hosted language model when
a usable API key is set. Otherwise, or when the call fails, it comes from a
keyword rule engine. This project models the deterministic part of
`final_groq.py`:

- `Text` — ASCII lower-casing (`Lower`) and Python's `in` on strings.
  `Contains` is the executable scan. `IsSubstring` is the reference meaning:
  there is a position where the word occurs.
- `Classifier` — the records (`Score`, `Entity`, `Analysis`) and the rule
  engine `legacy_rule_engine` (`LegacyRuleEngine`). Also the credential gate
  and failure fallback of `analyze_with_groq` (`AnalyzeWithGroq`).
- `Pipeline` — the upload page's "Start Processing" run. It holds the role
  heuristic (`RoleOf`), the entry appended per recognised chunk (`EntryFor`),
  the fold over chunks (`Transcribe`), and the session update
  (`ProcessUpload`). `ProcessUpload` clears the transcript and appends in a
  loop, as the source does.
- `Wrappers` — `Option`.

Oracles. The hosted model call is not modelled as a computation. Each call is
represented by a value `answer: Option<R>`: `Some(record)` is the parsed
record the call would return, and `None` means the call or the JSON parse
raised. The record's type `R` is left generic, because the source does not
check the schema of the model's reply. `AnalyzeWithGroq` therefore returns
`Reply<R>`: either `FromModel(record)` or `FromRules(analysis)`. Speech
recognition is represented the same way. Each chunk carries
`recognised: Option<string>`, and `None` means recognition raised.

Lower-casing. Python's `str.lower()` is Unicode-wide, but the model lowers
ASCII letters only. The only non-ASCII characters whose lower-case form
contains an ASCII letter are U+0130 (→ `i` + U+0307) and U+212A (→ `k`).
No keyword contains `k`. In the keywords, an `i` is never followed by
U+0307 and never comes last. So, for the keyword tests this code makes, the
two lower-casings give the same answers. Outside the keyword tests the
lowered text is never used.

Three facts about the code that the model keeps:

- The upload loop has no emptiness check: a recogniser result of `""` is
  appended like any other, as a Sales Agent entry (no cue occurs in it).
- The non-customer label is "Sales Agent" (`SalesAgent`).
- The intent score is 1.0 on every branch, including "General Inquiry".

## Model

| member | source | states |
|---|---|---|
| Text.Contains | final_groq.py:82-83 | the scan answers true exactly when the word occurs at some position of the text (Python's `in`) |
| Text.MentionsAny | final_groq.py:74-78 | `any(w in s for w in words)` is true exactly when some word of the list occurs in the text; order within the list is irrelevant |
| Text.Lower | final_groq.py:69 | the result has the same length, contains no upper-case ASCII letter, and leaves an already lower-case text unchanged |
| Text.LowerIdempotent | final_groq.py:69 | lower-casing twice is the same as lower-casing once |
| Classifier.LegacyRuleEngine | final_groq.py:67-91 | intent is Pricing iff a pricing word occurs; Purchase iff none does and a purchase word does; General Inquiry iff neither does; each intent comes with its own suggestion. Topic/Price is present iff the pricing branch fired; Brand/Samsung iff "samsung" occurs; Product/Phone iff "phone" occurs. Entities come in topic, brand, product order, at most 3. Sentiment is always Neutral 0.5, intent score 1.0, reasoning the fallback marker |
| Classifier.RankedEntitiesUnique | final_groq.py:72-83 | an entity list of the three fallback entities in extraction order is determined by which entities it contains |
| Classifier.LegacyRuleEngineCharacterized | final_groq.py:67-91 | the rule engine's record satisfies the declarative fallback description, and it is the only record that does |
| Classifier.LegacyRuleEngineIgnoresCase | final_groq.py:69 | an utterance and its lower-cased form get the same record ("HELLO PRICE" and "hello price" alike) |
| Classifier.AnalyzeWithGroq | final_groq.py:93-128 | the model's record is returned exactly when the key is usable (present, length at least 10) and the call succeeds; every other reply is the rule engine's record for the text |
| Classifier.ShortKeyNeverConsultsModel | final_groq.py:95-96 | a missing, empty or shorter-than-10 key behaves as no key: the reply is the rule engine's, whatever the model would have answered |
| Classifier.ModelFailureFallsBack | final_groq.py:126-128 | a failed model call yields the rule engine's record, whatever the key |
| Classifier.PricedSamsungPhoneExample | final_groq.py:74-91 | "What is the price of the Samsung phone?" with no key gives Pricing, the budget question, and entities Topic/Price, Brand/Samsung, Product/Phone |
| Classifier.SamsungPhoneWishExample | final_groq.py:74-83 | "I want a samsung phone" with no key gives Purchase, the brand question, and entities Brand/Samsung, Product/Phone |
| Pipeline.RoleOf | final_groq.py:251-252 | the role is Customer iff the lower-cased text contains "i want", "price", "show me" or "hello", otherwise Sales Agent |
| Pipeline.RoleOfIgnoresCase | final_groq.py:252 | the role does not depend on letter case |
| Pipeline.EntryFor | final_groq.py:251-258 | the entry keeps the recognised text and the heuristic role; it has an analysis iff the role is Customer, and that analysis is the gated analysis of the text |
| Pipeline.Transcribe | final_groq.py:242-258 | one entry per successfully recognised chunk, in chunk order, with that chunk's text; every entry is consistent (role from the cues, analysis only for customers, rule-engine analyses match the text, model analyses only with a usable key). Which chunk's model answer each entry uses is stated by `TranscribeChunk` |
| Pipeline.TranscribeChunk | final_groq.py:249-258 | a recognised chunk k yields, at the position right after the entries of chunks 0..k-1, exactly the entry built from chunk k's own text and chunk k's own model answer; an unrecognised chunk adds no entry |
| Pipeline.RecognisedConcat | final_groq.py:242-250 | the recognised texts of a call split in two are the first half's followed by the second half's, so recognised texts keep chunk order |
| Pipeline.TranscribeConcat | final_groq.py:242-258 | processing a call split in two gives the first half's entries followed by the second half's |
| Pipeline.AllRecognised | final_groq.py:242-258 | when every chunk is recognised there are as many entries as chunks, and entry i is the one built from chunk i's text and chunk i's model answer |
| Pipeline.TranscribeIgnoresModelWithoutKey | final_groq.py:254-256 | without a usable key the transcript depends only on the recognised texts, never on the model's answers |
| Pipeline.ProcessUpload | final_groq.py:233-258 | the upload transcript is first reset, then ends up as exactly the fold over the chunks; the live transcript and the active key are unchanged |

## Left out

- The hosted model request itself (final_groq.py:99-124): a network API call. Its outcome is the `answer` parameter, and the shape of the record it returns is not modelled.
- Audio capture, `transcribe_audio` and `recognize_google` (final_groq.py:130-138, 172-175, 249-250): hardware and network I/O. Their outcome is the `recognised` parameter of each chunk.
- `split_on_silence` and `audio.dBFS` (final_groq.py:239-240): a third-party segmenter using floating-point loudness. The model starts from the chunk sequence it produced.
- Temporary-file creation and removal (final_groq.py:243-246, 260-261): filesystem side effects.
- Pipeline.ProcessUpload: always processes every chunk. In the source, `chunk.export` (246), `sr.AudioFile` (247) and the `os.remove` in `finally` (261) sit outside the inner `try`/`except: pass`. If one of them raises, the exception leaves the loop and the run ends early, keeping only the earlier chunks' entries in the already-cleared transcript. The model's chunk outcome has no such abort case, because those steps are filesystem and audio-library I/O.
- The live page's record-and-append step (final_groq.py:170-186): page glue outside the upload run. Its analysis goes through `AnalyzeWithGroq` like the upload path's.
- Session initialisation, the sidebar key widget, page routing, rendering and `print` logging (final_groq.py:27-63, 142-164, 187-232, 263-282): user-interface glue.
- Text.Lower: models ASCII lower-casing, not Python's Unicode-wide `str.lower()`. The argument above shows the keyword decisions agree.
- Scores are `real` numbers rather than floating point. Only the constants 0.5 and 1.0 occur.
