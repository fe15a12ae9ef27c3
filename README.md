# Naam Jaap chant counter — a Dafny model

This project models the decision logic of a devotional chant counter web application. A user
chants a phrase. Each repetition (a *japa*) raises a counter, and 108 repetitions make one
*mala*. Repetitions are counted by manual taps or by an automatic cycle that plays an audio clip
or synthesizes speech and counts each time it finishes.

The modules follow the application's files:

| module | file | form |
|---|---|---|
| `Tally` | `src/app/page.tsx` | the mala rollover as pure functions, with lemmas on repeated increments |
| `Home` | `src/app/page.tsx` | `formatTime` and the `speak` branch choice as functions; the page as a class `Home` whose methods are the events the page receives |
| `HomeAudio` | `src/app/page.tsx` | the shared audio element, its `'ended'` listeners and its `play()` promises as values |
| `TallyCounter` | `src/components/TallyCounter.tsx` | the zero-padded count and the total line |
| `Decimal` | (runtime) | `Number.toString()` and `padStart` for non-negative integers, and reading digits back |
| `JsString` | (runtime) | `string.length`, counted in UTF-16 code units, which the forms' minimum-length rules use |
| `UserProfile` | `src/components/UserProfile.tsx` | `getInitials` and the anonymous-user display rule |
| `DefaultChants` | `src/lib/default-chants.ts` | the built-in chant table and its invariants |
| `Actions` | `src/app/actions.ts` | the success/error envelope of the two server actions |
| `AudioStyleSelector` | `src/components/AudioStyleSelector.tsx` | the tab and chant-selection rules and the transcription fallbacks as functions; the record, upload and AI panels as classes |
| `History` | `src/app/history/page.tsx` | the group-by-day `reduce` as a loop that fills a map |
| `AuthErrors`, `Login`, `Signup` | `src/app/login/page.tsx`, `src/app/signup/page.tsx` | error-code messages and form rules as functions; each page's `isLoading` flow as a class |

The `Home` class states the page's callback discipline. Each run of the chant-cycle effect is a
numbered instance. Only the newest instance's `isMounted` flag is still true, and only while the
page is mounted. The invariant `Home.Home.Valid` says that a running cycle has exactly one
callback to come: a pending re-arm timeout, an attached live audio listener, or a pending
utterance. A stopped cycle has none. Every event method keeps this invariant. So a completion
that arrives after a cleanup finds its instance dead and neither counts nor re-arms.

The class runs the corrected rejection handler for the audio element's `play()` promise, which
also detaches the rejected call's `'ended'` listener. The invariant and the at-most-one-increment
guarantees of the audio events hold for that corrected page. The handler as written leaves the
listener attached; `HomeAudio.SettleAsWritten` models it, and the first row of "Findings" shows
the double count it allows.

The sign-in and sign-up calls come from a helper module that is not part of this model. Their
outcome is an input of the page's events: they either resolve, or throw an error with a code.

The document store, the clock, the browser's audio and speech engines, the microphone and the
AI flows are parameters of the events. A store write, for example, is an event that says whether
the write succeeded. Day labels and date formatting are an abstract key function.

Points where the page's behaviour is easy to misread:
- Saves are dropped while one is in flight. They are not coalesced to the latest state.
- The page plays the clip through one audio element, with no double-buffered gapless handoff.
- When the requested voice is missing from the runtime's voice list, the utterance is still
  spoken with the default voice. Only a missing voice *name* completes at once.
- The session clock is never reset on this page.

## Model

| member | source | states |
|---|---|---|
| `Tally.Increment` | src/app/page.tsx:221-233 | the count stays below 108; from an in-range tally the total japa rises by exactly 1; malas rise by at most one, and exactly when the count restarts at 0 |
| `Tally.TotalRoundTrip` | src/app/page.tsx:283 | `malas*108 + count` and its inverse (count = n mod 108, malas = n div 108) are inverse on in-range tallies, both ways round |
| `Tally.IncrementFromTotal` | src/app/page.tsx:221-233 | incrementing the tally whose total is n gives the tally whose total is n+1 |
| `Tally.IncrementTimesAdds` | src/app/page.tsx:218-235 | n increments from any in-range tally add exactly n to the total |
| `Tally.IncrementsFromZero` | src/app/page.tsx:221-233 | N increments from (0,0) give count N mod 108 and N div 108 malas |
| `TallyCounter.CountDisplay` | src/components/TallyCounter.tsx:39 | the display has length max(3, digits of count), is all digits, denotes count, and ends with the decimal numeral of count |
| `TallyCounter.CountDisplayWidth` | src/components/TallyCounter.tsx:39 | counts below 1000 show exactly three characters |
| `TallyCounter.CountDisplayStrips` | src/components/TallyCounter.tsx:39 | stripping leading zeros gives back the decimal numeral of count |
| `TallyCounter.ZeroDisplay` | src/components/TallyCounter.tsx:39 | a count of 0 shows "000" |
| `TallyCounter.TotalDisplay` | src/components/TallyCounter.tsx:48 | the card's `108*malas + count` equals the page's total japa |
| `TallyCounter.TotalDisplayCounts` | src/components/TallyCounter.tsx:48 | after n increments from zero the card shows n |
| `Decimal.ValueOfDecimal` | src/components/TallyCounter.tsx:39 | the numeral `toString` gives reads back as the number |
| `Decimal.StripPaddedDecimal` | src/components/TallyCounter.tsx:39 | removing the zeros `padStart` added gives back the numeral |
| `Home.Pad2` | src/app/page.tsx:168-170 | each clock field has at least two characters, exactly two below 100 |
| `Home.Pad2Value` | src/app/page.tsx:168-170 | each clock field is all digits and denotes its value |
| `Home.ClockArithmetic` | src/app/page.tsx:168-170 | hours*3600 + minutes*60 + seconds gives the input back; minutes stay below 60, and hours below 100 for fewer than 360000 seconds |
| `Home.ClockText` | src/app/page.tsx:171 | the fields joined by colons: the `H...H:MM:SS` shape, exactly 8 characters below 100 hours |
| `Home.ClockTextRoundTrip` | src/app/page.tsx:168-171 | a clock text with minutes and seconds below 60 parses back to hours*3600 + minutes*60 + seconds |
| `Home.FormatTime` | src/app/page.tsx:167-172 | the text is at least 8 characters with colons before the minutes and the seconds; exactly 8 (`HH:MM:SS`) below 360000 seconds |
| `Home.FormatTimeRoundTrip` | src/app/page.tsx:167-172 | the text parses back to hours*3600 + minutes*60 + seconds = the input, with minutes and seconds below 60 |
| `Home.ChooseSpeakPath` | src/app/page.tsx:174-215 | the callback runs at once exactly when the page is neither chanting nor in auto mode, or no clip, native bridge or speech path applies; each other path is taken only when it applies, in clip, native, speech priority |
| `Home.Home.constructor` | src/app/page.tsx:60-80 | the loaded page: counters from the user document (0,0 when absent or signed out), today's count from today's daily document, manual mode, not chanting, nothing pending |
| `Home.Home.SaveData` | src/app/page.tsx:89-101 | a write starts only when a user is signed in and no save is in flight; otherwise the call is dropped |
| `Home.Home.SaveSettled` | src/app/page.tsx:92-99 | the in-flight flag is cleared after both success and error; only a success stores the counters |
| `Home.Home.UpdateDailyChantCount` | src/app/page.tsx:103-107 | signed in, today's count gets an optimistic +1 and a store update is pending; signed out, nothing happens |
| `Home.Home.DailySettled` | src/app/page.tsx:109-123 | a successful update stores existing+1, or 1 when the day's document is absent; a failure undoes the +1 |
| `Home.Home.HandleIncrement` | src/app/page.tsx:218-235 | one increment: the tally rolls over as `Tally.Increment`, the daily count and the guarded save follow |
| `Home.Home.TimerTick` | src/app/page.tsx:150-165 | the session clock advances by one second only while the interval runs, and the invariant keeps the interval running exactly while chanting |
| `Home.Home.Completion` | src/app/page.tsx:244-250 | a completion increments and re-arms only if its effect instance is still mounted and chanting; otherwise it changes nothing |
| `Home.Home.FireAll` | src/app/page.tsx:182-186 | corrected: an event that runs several callbacks increments at most once, because at most one of them belongs to the live instance |
| `Home.Home.Speak` | src/app/page.tsx:174-216 | one `speak` call for the live cycle: completes at once (and counts), plays the clip with one new listener, or leaves one utterance pending |
| `Home.Home.PlayFor` | src/app/page.tsx:179-191 | the clip path: one new listener for the instance and one `play()` call, with the invariant kept |
| `Home.Home.AwaitSpeech` | src/app/page.tsx:195-212 | the native-bridge and speech paths: the instance's completion waits on a timer or an utterance |
| `Home.Home.ChantCycle` | src/app/page.tsx:241-251 | the cycle speaks only while its instance is live, in auto mode and chanting; otherwise it does nothing |
| `Home.Home.RestartCycle` | src/app/page.tsx:237-268 | the effect cleanup then setup: a new instance, the old timeout cleared, the audio paused, and a first `speak` only in auto mode while chanting |
| `Home.Home.EndInstance` | src/app/page.tsx:257-267 | the effect cleanup: the old instance is dead, its timeout cleared, the audio paused, and nothing is due before the next instance's first `chantCycle` |
| `Home.Home.AutoToggle` | src/app/page.tsx:272 | `isChanting` flips only in auto mode; the timer follows it and the cycle restarts |
| `Home.Home.SetMode` | src/app/page.tsx:335-338 | any mode change first forces `isChanting` false; the timer stops and the in-flight cycle is cancelled without counting |
| `Home.Home.ManualTap` | src/app/page.tsx:271 | a tap increments exactly once, only in manual mode, and its `speak` completes at once |
| `Home.Home.TimeoutFired` | src/app/page.tsx:247-248 | the live re-arm timeout runs the next `speak`; with no timeout pending nothing changes |
| `Home.Home.AudioEnded` | src/app/page.tsx:182-186 | corrected: the `'ended'` event runs the attached callbacks and increments at most once |
| `Home.Home.PlaySettled` | src/app/page.tsx:188-191 | corrected: a rejected `play()` runs the completion callback, so the cycle does not stall, and detaches that call's listener |
| `Home.Home.SpeechEnded` | src/app/page.tsx:195-212 | an utterance end (or the native bridge's timer) counts only for the live instance |
| `Home.Home.ApplySettings` | src/app/page.tsx:237-268 | the settings always take the new value; a change on a mounted page re-runs the cycle effect under a new instance, which speaks at once when the cycle runs and otherwise clears the timeout and pauses the audio without counting; no change, or an unmounted page, leaves the cycle and the counters as they were |
| `Home.Home.Unmount` | src/app/page.tsx:257-267 | after navigation away no timeout, interval or play is left and every later callback is dead |
| `HomeAudio.Play` | src/app/page.tsx:179-188 | a clip `speak` attaches one listener, starts one `play()`, and loads that call |
| `HomeAudio.Pause` | src/app/page.tsx:263-266 | the cleanup stops the element and leaves listeners attached |
| `HomeAudio.Ended` | src/app/page.tsx:182-186 | `'ended'` fires only after a play started and runs every attached listener once |
| `HomeAudio.Settle` | src/app/page.tsx:188-191 | corrected: a current play that resolves starts playing; every rejection runs its callback once and detaches that call's listener only |
| `HomeAudio.SettleAsWritten` | src/app/page.tsx:188-191 | the promise leaves the unsettled plays; the current play resolving starts playback with no callback; otherwise the `catch` runs the rejected call's callback, unloads that play if it was current, and leaves every listener attached |
| `HomeAudio.LiveListenersAtMostOne` | src/app/page.tsx:182-186 | with the corrected handler, the live instance never has two listeners attached |
| `HomeAudio.SettleCoherent` | src/app/page.tsx:188-191 | with the corrected handler, settling a play conserves the live instance's pending callbacks |
| `HomeAudio.EndedCoherent` | src/app/page.tsx:182-186 | `'ended'` conserves the live instance's pending callbacks |
| `HomeAudio.LeakedListenerFiresTwice` | src/app/page.tsx:182-191 | as written: a rejected play, then a successful one, runs one instance's callback twice on `'ended'` |
| `HomeAudio.DetachedListenerFiresOnce` | src/app/page.tsx:182-191 | corrected: the same events run the callback once per playback |
| `AudioStyleSelector.TabSource` | src/components/AudioStyleSelector.tsx:73-80 | the source is speech exactly for the 'ai' and 'defaults' tabs, and a clip otherwise |
| `AudioStyleSelector.HandleTabChange` | src/components/AudioStyleSelector.tsx:73-80 | only the audio source changes |
| `AudioStyleSelector.SelectChantAsWritten` | src/components/AudioStyleSelector.tsx:154-157 | the entry's text, voice name and language are set; source, clip and speed are untouched |
| `AudioStyleSelector.AudioOnlyChantCountsSilently` | src/components/AudioStyleSelector.tsx:154-157 | as written, a recorded entry chosen on the defaults tab leaves auto mode with nothing to play, so each cycle completes at once |
| `AudioStyleSelector.SelectChant` | src/components/AudioStyleSelector.tsx:154-157 | corrected: a recorded entry selects its own clip; a voiced entry behaves as written |
| `AudioStyleSelector.EveryDefaultChantIsAudible` | src/components/AudioStyleSelector.tsx:154-157 | corrected: every table entry is heard, as a clip or as speech |
| `AudioStyleSelector.FirstDefaultChantIsRecorded` | src/lib/default-chants.ts:12-17 | the table has a recorded entry, so the as-written case arises |
| `AudioStyleSelector.RecordPanelText` | src/components/AudioStyleSelector.tsx:330-341 | record panel: the transcript on success, "Om" on an error envelope or a throw |
| `AudioStyleSelector.UploadPanelText` | src/components/AudioStyleSelector.tsx:466-475 | upload panel: the transcript on success, "Om" on an error envelope, "Untrack word" on a throw |
| `AudioStyleSelector.PanelsAgreeUnlessThrown` | src/components/AudioStyleSelector.tsx:338-341 | the two panels choose the same text exactly when the action answered |
| `AudioStyleSelector.BlobType` | src/components/AudioStyleSelector.tsx:363 | the recorder's type, or 'audio/webm' when it is empty |
| `AudioStyleSelector.FallbackTypeIsAudio` | src/components/AudioStyleSelector.tsx:363 | the fallback type passes the upload panel's audio check |
| `AudioStyleSelector.RecordVoicePanel.constructor` | src/components/AudioStyleSelector.tsx:315-319 | not recording, not transcribing, no recorder, empty buffer |
| `AudioStyleSelector.RecordVoicePanel.StartRecording` | src/components/AudioStyleSelector.tsx:347-376 | unsupported or refused: nothing changes; otherwise a recorder starts with an empty buffer |
| `AudioStyleSelector.RecordVoicePanel.DataAvailable` | src/components/AudioStyleSelector.tsx:359-361 | each chunk is appended to the buffer |
| `AudioStyleSelector.RecordVoicePanel.StopRecording` | src/components/AudioStyleSelector.tsx:396-403 | stopping with no recorder is a no-op; otherwise recording ends |
| `AudioStyleSelector.RecordVoicePanel.RecorderStopped` | src/components/AudioStyleSelector.tsx:362-372 | the buffer becomes the blob, the source becomes the recorded clip, the buffer is emptied, transcription starts |
| `AudioStyleSelector.RecordVoicePanel.TranscriptionSettled` | src/components/AudioStyleSelector.tsx:322-345 | the chant text follows `RecordPanelText` and `isTranscribing` is false after every path |
| `AudioStyleSelector.UploadAudioPanel.constructor` | src/components/AudioStyleSelector.tsx:454-455 | no file, not transcribing |
| `AudioStyleSelector.UploadAudioPanel.FileChange` | src/components/AudioStyleSelector.tsx:482-496 | no file, or a type not starting with "audio/", changes nothing; an audio file becomes the clip and is transcribed |
| `AudioStyleSelector.UploadAudioPanel.TranscriptionSettled` | src/components/AudioStyleSelector.tsx:459-480 | the chant text follows `UploadPanelText` and `isTranscribing` is false after every path |
| `AudioStyleSelector.AIGeneratorPanel.constructor` | src/components/AudioStyleSelector.tsx:183-188 | not loading, no result |
| `AudioStyleSelector.AIGeneratorPanel.Submit` | src/components/AudioStyleSelector.tsx:198-202 | a style under five UTF-16 code units (the zod rule at :59) is rejected; otherwise loading starts and speech is selected |
| `AudioStyleSelector.AIGeneratorPanel.VoiceSettled` | src/components/AudioStyleSelector.tsx:202-224 | an answered call ends loading: success sets voice name and language from the answer and stores it, an error envelope leaves them; a rejected call escapes before `setIsLoading(false)`, so nothing changes and loading stays on |
| `DefaultChants.TableWellFormed` | src/lib/default-chants.ts:11-59 | seven entries with distinct ids, non-empty text and description, a clip or a voice and never both, and every voice in "hi-IN" |
| `JsString.CodeUnits` | src/app/signup/page.tsx:30 | one code unit exactly for a Basic Multilingual Plane character, else two |
| `JsString.Utf16Length` | src/app/signup/page.tsx:30 | a string's JavaScript length lies between its character count and twice that |
| `JsString.Utf16LengthConcat` | src/app/signup/page.tsx:30 | lengths add over concatenation |
| `JsString.Utf16LengthBasic` | src/app/signup/page.tsx:30 | the JavaScript length equals the character count exactly when every character is in the Basic Multilingual Plane |
| `JsString.AstralCharacterLength` | src/app/signup/page.tsx:30 | one character outside that plane, such as an emoji, has length 2 |
| `Actions.ErrorMessage` | src/app/actions.ts:20-23 | an `Error`'s message, else "An unknown error occurred." |
| `Actions.Wrap` | src/app/actions.ts:13-27 | success exactly when the call returned, with the data unchanged; otherwise the prefix and the message |
| `Actions.UnwrapWrap` | src/app/actions.ts:13-27 | every envelope reads back as the outcome it came from, a non-`Error` as the unknown-error message |
| `Actions.WrapDistinguishes` | src/app/actions.ts:13-27 | two outcomes give the same envelope exactly when they agree once normalized |
| `Actions.GetCustomVoice` | src/app/actions.ts:13-27 | `{success: true, data}` on a result; "Failed to generate voice style: " and the message otherwise; never throws |
| `Actions.GetTranscript` | src/app/actions.ts:29-43 | the same with "Failed to transcribe audio: " |
| `Actions.PrefixesDiffer` | src/app/actions.ts:36-41 | a voice failure and a transcription failure are never the same envelope |
| `History.Filter` | src/app/history/page.tsx:52-59 | one label's group: sessions carrying that label, in input order |
| `History.FilterKeeps` | src/app/history/page.tsx:52-59 | every session is in the group of its own label |
| `History.Labels` | src/app/history/page.tsx:52-53 | one day label per session, in input order |
| `History.FirstOccurrencesMembers` | src/app/history/page.tsx:90 | the key order lists every label that occurs, and no other, each once |
| `History.KeysStep` | src/app/history/page.tsx:54-56 | one more session adds its label at the end of the key order exactly when the label is new |
| `History.FilterNonEmpty` | src/app/history/page.tsx:54-56 | a key has a group exactly when some session carries its label |
| `History.GroupSessions` | src/app/history/page.tsx:50-60 | missing sessions give an empty grouping; the keys are the labels in order of first occurrence (the order `Object.entries` renders), each listed once; each group is that label's sessions in input order; the sizes sum to the number of sessions; no keys (the empty message) exactly when there are no sessions |
| `UserProfile.SplitJoin` | src/components/UserProfile.tsx:47 | the modelled `split` loses nothing: joining the pieces gives the name back |
| `UserProfile.FirstCharsAreWordStarts` | src/components/UserProfile.tsx:47 | the first characters of the space-separated pieces are the word starts, in order |
| `UserProfile.GetInitials` | src/components/UserProfile.tsx:45-48 | "A" for a missing or empty name; otherwise at most two characters with no lower-case letter |
| `UserProfile.InitialsAreWordStarts` | src/components/UserProfile.tsx:47 | for a non-empty name: the first two word starts, upper-cased |
| `UserProfile.Profile` | src/components/UserProfile.tsx:57-59 | anonymous users get "A" and "Anonymous User"; others their display name and `getInitials` of it, "A" when the name is missing or empty |
| `Login.LoginFailureMessage` | src/app/login/page.tsx:56-65 | user-not-found, wrong-password and invalid-credential give the credentials message; any other code or error gives the default |
| `Login.LoginPage.constructor` | src/app/login/page.tsx:32 | not loading |
| `Login.LoginPage.SignIn` | src/app/login/page.tsx:49-73 | a form with an empty password is not submitted; a failure resets loading and shows its message; success stays loading |
| `Login.LoginPage.SignInAnonymously` | src/app/login/page.tsx:75-88 | failure resets loading with the anonymous message; success stays loading |
| `Signup.SignupFailureMessage` | src/app/signup/page.tsx:77-82 | only 'auth/email-already-in-use' gets its own message; everything else gets the default |
| `Signup.SignupPage.constructor` | src/app/signup/page.tsx:36 | not loading |
| `Signup.EmojiFormAccepted` | src/app/signup/page.tsx:30-32 | the form rules measure UTF-16 code units: a one-emoji name and a three-emoji password pass |
| `Signup.SignupPage.SignUp` | src/app/signup/page.tsx:53-90 | a name under 2 or a password under 6 UTF-16 code units is not submitted; success writes id = uid, the form name and the account email; a failure resets loading and writes nothing |

## Left out

- Firestore reads, writes and snapshot listeners are modelled as a map plus success/failure events. Snapshot updates after the initial load are not modelled.
- The read-then-write race on the daily document between two tabs is not modelled; the store is updated as one step.
- The timing of React state updates and stale closures is not modelled. `handleIncrement` reads the latest `count` and `malas`.
- The effect re-run that `handleIncrement`'s changed identity causes at a mala rollover is treated like the 50 ms re-arm timeout. Both start the next `speak` of a live cycle.
- The 50 ms re-arm delay, the 2 s celebration timeout and the one-second interval are discrete events, not real time.
- The celebration flag and the animation key are left out. They only drive rendering.
- The playback and speech rate `0.5 + speed/100*1.5` and the progress ring geometry are floating point. They are not modelled.
- Home.Home.PlaySettled, HomeAudio.Settle: the page class runs the corrected rejection handler, which detaches the rejected play's listener. The page as written is `HomeAudio.SettleAsWritten`, and `HomeAudio.LeakedListenerFiresTwice` shows its double count.
- The sign-in and sign-up helpers (`initiateEmailSignIn`, `initiateAnonymousSignIn`, `initiateEmailSignUp`) are not part of this model. Each call is taken to resolve or throw an error with a code, as the pages' `await` and `catch` expect.
- Signup.SignupPage.SignUp: the user document write (`setDocumentNonBlocking` with `merge`) is modelled as succeeding at once. A failure of that write would go unseen by the page.
- The `voices` list also re-creates `speak` (src/app/page.tsx:216), so a change to it re-runs the cycle effect and cancels an utterance in flight without counting. Voice list changes are not events of the model.
- The browser's `Audio`, `speechSynthesis`, voice loading, `MediaRecorder`/`getUserMedia`, `FileReader` and the native app's `postMessage` are abstract events: ended, settled, utterance end, granted or refused.
- Day keys from `new Date().toISOString()` and the history page's date-fns labels are a key argument or an abstract function.
- The AI voice-style flow and the transcription flow are outcomes given to the model. The zod email check is a boolean input.
- Toast messages are modelled only where they carry an error text chosen by the code (login and sign-up).
- The layout, the chant animator and the profile page only render, so they are not modelled.
- The chant text input's `chantText` reference in the settings panel is not modelled: it is not among the component's declared props.
- UserProfile.GetInitials: upper-cases ASCII letters only and treats a string as Unicode characters, not UTF-16 code units. JavaScript's `toUpperCase` can lengthen a string (for example "ß" becomes "SS"), so the length bound of 2 holds only for the modelled case mapping.

## Findings

| source | as written | input that shows it | evidently intended | confidence | as-written member | corrected member |
|---|---|---|---|---|---|---|
| src/app/page.tsx:188-191 | a rejected `play()` runs the completion callback but leaves the `'ended'` listener attached | an auto cycle on a clip whose `play()` rejects once and then succeeds: the next `'ended'` runs the live callback twice, counting two and starting two cycles | a rejected play should also detach its listener, so each play completes once | medium, not executed | `HomeAudio.LeakedListenerFiresTwice` | `HomeAudio.SettleCoherent` |
| src/components/AudioStyleSelector.tsx:154-157 | selecting a default chant copies text, voice name and language but never its `audioUrl`; the defaults tab has set the source to speech | switch to the defaults tab, pick "राम राम" (a recorded entry), start auto mode in a browser: no clip and no voice name, so every cycle completes at once and counts silently | a recorded entry should select its own clip | medium, not executed | `AudioStyleSelector.AudioOnlyChantCountsSilently` | `AudioStyleSelector.EveryDefaultChantIsAudible` |
