# Three-word sentence trainer — a verified Dafny model

The application is a small browser tool for speech practice. It has two pages
that share the browser's key-value store:

- the **admin page** (`admin/page.tsx`) keeps a list of keyword / three-word-sentence
  pairs and a settings record (word delay, repeat count, speech rate, speech pitch).
  A pair is validated before it is added. Deleting a pair and clearing all data both ask for confirmation.
- the **learner page** (`page.tsx`) loads the list once. "Start"/"Next" picks,
  with two or more pairs, a random pair other than the one just shown; a one-pair
  list always shows that pair. Either way the pair's keyword is spoken. "Word Only"
  and "Full Sentence" speak the current keyword or sentence. An
  `isPlaying` lock disables every button while an utterance is pending.

This project models that logic in five modules:

- `Wrappers.dfy`: `Option` and `Result`.
- `Text.dfy`: JavaScript's `trim` and `split(/\s+/)`, over the ECMAScript white-space set.
  It proves that trimming is empty exactly on blank input and that splitting gives words.
  It also proves that splitting round-trips with joining by any runs of white space.
- `Storage.dfy`: the store as a class holding a map from key (`"sentences"`,
  `"settings"`) to an abstract stored value: empty text, malformed text, a pair list or
  a settings record. Each page reads the store with its own defaults. The module proves
  the save→load round trips and the post-clear defaults.
- `Admin.dfy`: the validator, the index filter and the settings-field update as
  functions. The page is a class whose methods (`AddSentence`, `DeleteSentence`,
  `EditSetting`, `SaveSettings`, `ClearAllData`, …) change its fields and the store.
- `Learner.dfy`: the rejection-sampling loop as a method over an explicit
  sequence of `Math.random()` draws, proved to return the first accepted draw,
  which is in range and differs from the previous index. The page is a class
  with the speech channel's pending queue and the `isPlaying` lock. Its invariant says:
  - the lock is held exactly while an utterance is pending;
  - the current pair is the one at the current index;
  - with two or more pairs, no index is ever selected twice in a row.

Inputs the source gets from the browser are parameters:
- the answer to `confirm` (`confirmed`);
- whether the store refuses a write (`writeFails`);
- whether a speech capability exists (`speechAvailable`);
- the results of `Math.random()` (`draws`).

Alerts are returned as values. Spoken text is recorded in `spoken`.

## Model

| member | source | states |
|---|---|---|
| `Text.IsSpace` | user-workspace/src/app/admin/page.tsx:56-60 | the white space of `trim` and `\s`; on ASCII it is exactly space, tab, line feed, vertical tab, form feed and carriage return |
| `Text.TrimStartSpec` | user-workspace/src/app/admin/page.tsx:56 | trimming the start cuts only a blank prefix and leaves text that does not start with white space |
| `Text.TrimEndSpec` | user-workspace/src/app/admin/page.tsx:56 | trimming the end cuts only a blank suffix and leaves text that does not end with white space |
| `Text.Trim` | user-workspace/src/app/admin/page.tsx:56 | the trimmed text has no white space at either end and is no longer than the input |
| `Text.TrimEmptyIffBlank` | user-workspace/src/app/admin/page.tsx:56 | the trim is empty exactly when every character of the input is white space (so `!x.trim()` is "blank") |
| `Text.TrimIsPiece` | user-workspace/src/app/admin/page.tsx:65 | the trim is a contiguous piece of the input and everything cut from either side is white space |
| `Text.TrimIdempotent` | user-workspace/src/app/admin/page.tsx:65 | trimming twice is trimming once |
| `Text.TrimPadded` | user-workspace/src/app/admin/page.tsx:60-65 | text with no white space at either end, padded with white space on both sides, trims back to itself |
| `Text.Split` | user-workspace/src/app/admin/page.tsx:60 | `split(/\s+/)` always yields at least one field |
| `Text.SplitFieldsSpaceFree` | user-workspace/src/app/admin/page.tsx:60 | no field of a split contains white space |
| `Text.SplitKeepsNonSpace` | user-workspace/src/app/admin/page.tsx:60 | the fields, concatenated, are exactly the input's non-space characters in order |
| `Text.SplitTrimmedGivesWords` | user-workspace/src/app/admin/page.tsx:60 | on a non-empty trimmed string every field is a non-empty word |
| `Text.SplitAfterGap` | user-workspace/src/app/admin/page.tsx:60 | a non-empty run of white space of any length and kind, before text not starting with white space, is exactly one field boundary |
| `Text.SplitJoinRoundTrip` | user-workspace/src/app/admin/page.tsx:60 | words joined by any non-empty runs of white space split back into exactly those words |
| `Storage.LocalStorage.SetItem` | user-workspace/src/app/admin/page.tsx:51 | writing a key replaces that key's entry and no other |
| `Storage.LocalStorage.RemoveItem` | user-workspace/src/app/admin/page.tsx:90-91 | removing a key drops that key's entry and no other |
| `Storage.AdminSentences` | user-workspace/src/app/admin/page.tsx:33-40 | `loadSentences` gives the stored list when one is stored, and otherwise either the empty list or the list the page already had |
| `Storage.LearnerSentences` | user-workspace/src/app/page.tsx:19-27 | `getSentences` gives the stored list when one is stored, and otherwise either the seed pair alone or the empty list |
| `Storage.StoredSettings` | user-workspace/src/app/page.tsx:29-39 | `getSettings` gives the stored settings record when one is stored, and otherwise the defaults |
| `Storage.ReadDefaults` | user-workspace/src/app/page.tsx:19-39 | an absent list, or a stored empty string, reads as `[]` on the admin page and as the seed pair `hungry`/`I am hungry` on the learner page. A malformed list leaves the admin list unchanged and reads as `[]` on the learner page. Absent, empty or malformed settings read as `{10, 1, 0.8, 1.2}` |
| `Storage.SentencesRoundTrip` | user-workspace/src/app/admin/page.tsx:33-53 | a written list reads back unchanged on both pages; writing the list leaves the settings reading unchanged and keeps each key's entry of its own shape |
| `Storage.SettingsRoundTrip` | user-workspace/src/app/page.tsx:29-39 | settings written by the admin page read back unchanged on the learner page; the lists read by both pages are undisturbed |
| `Storage.ClearedStore` | user-workspace/src/app/admin/page.tsx:88-98 | after both keys are removed the admin page reads `[]`, the learner page reads the seed pair, and both read the default settings |
| `Admin.Validate` | user-workspace/src/app/admin/page.tsx:55-63 | missing-field error iff keyword or sentence is blank. Word-count error iff both are non-blank and the trimmed sentence does not split into 3 fields. Otherwise the accepted pair is the two trimmed inputs |
| `Admin.AcceptedPairShape` | user-workspace/src/app/admin/page.tsx:60-65 | an accepted pair has a non-empty trimmed keyword and a trimmed sentence of exactly three words |
| `Admin.BlankSentenceIsMissingField` | user-workspace/src/app/admin/page.tsx:56-63 | the missing-field check runs first: a blank sentence never gives the word-count error |
| `Admin.AcceptsThreeWords` | user-workspace/src/app/admin/page.tsx:60-65 | a non-blank keyword with any three words, separated by any runs of white space and padded at either end, is accepted; the stored sentence drops the padding |
| `Admin.RejectsOtherCounts` | user-workspace/src/app/admin/page.tsx:60-63 | a non-blank keyword with any other number of words, however separated and padded, gets the word-count error |
| `Admin.KeywordOnlyNeedsContent` | user-workspace/src/app/admin/page.tsx:56-65 | acceptance depends on the keyword only through its being non-blank |
| `Admin.MultiWordKeywordAccepted` | user-workspace/src/app/admin/page.tsx:65 | an instance of `AcceptsThreeWords`: the two-word keyword `very hungry` is accepted with `I am hungry`, since only the sentence is counted |
| `Admin.Without` | user-workspace/src/app/admin/page.tsx:73 | the filter removes one element when the index is in range and none otherwise |
| `Admin.WithoutSpec` | user-workspace/src/app/admin/page.tsx:73 | filtering out an in-range index gives the list minus that element, length n-1, order kept; an out-of-range index changes nothing |
| `Admin.WithField` | user-workspace/src/app/admin/page.tsx:180-222 | the edited settings field takes the new value; the other three keep theirs |
| `Admin.AdminPage.Mount` | user-workspace/src/app/admin/page.tsx:42-48 | mounting loads the list (absent: empty) and a stored settings record (else the defaults); inputs and error start empty |
| `Admin.AdminPage.LoadSentences` | user-workspace/src/app/admin/page.tsx:33-40 | the list becomes what the store holds; a parse failure keeps the previous list |
| `Admin.AdminPage.SaveSentences` | user-workspace/src/app/admin/page.tsx:50-53 | the list is written under `"sentences"` and afterwards the page's list equals it |
| `Admin.AdminPage.EditKeyword` | user-workspace/src/app/admin/page.tsx:134 | typing sets the keyword input |
| `Admin.AdminPage.EditSentence` | user-workspace/src/app/admin/page.tsx:147 | typing sets the sentence input |
| `Admin.AdminPage.AddSentence` | user-workspace/src/app/admin/page.tsx:55-69 | on refusal: the matching message is set; list, inputs and store unchanged. On success: error and both inputs cleared; list is the old list followed by the trimmed pair, in memory and in the store |
| `Admin.AdminPage.DeleteSentence` | user-workspace/src/app/admin/page.tsx:71-76 | confirmed: the list is filtered at the index and saved; not confirmed: nothing changes |
| `Admin.AdminPage.EditSetting` | user-workspace/src/app/admin/page.tsx:180-222 | a keystroke replaces one field of the in-memory settings; nothing is written to the store |
| `Admin.AdminPage.SaveSettings` | user-workspace/src/app/admin/page.tsx:78-86 | the settings are written and the success notice returned; if the write fails the store is unchanged and the error notice returned; in-memory settings never change |
| `Admin.AdminPage.ClearAllData` | user-workspace/src/app/admin/page.tsx:88-101 | confirmed: both keys absent, list empty, settings `{10, 1, 0.8, 1.2}`, completion notice; not confirmed: nothing changes |
| `Learner.Draw` | user-workspace/src/app/page.tsx:105 | `Math.floor(r * n)`: the largest integer not above `r * n` |
| `Learner.DrawInRange` | user-workspace/src/app/page.tsx:105 | `Math.floor(Math.random() * n)` is an index in `[0, n)` |
| `Learner.EveryIndexDrawable` | user-workspace/src/app/page.tsx:105 | every index in `[0, n)` is the image of some draw in `[0, 1)` |
| `Learner.FirstAccepted` | user-workspace/src/app/page.tsx:104-106 | every draw before the first accepted one lands on the previous index and the accepted one does not |
| `Learner.SentinelTakesFirstDraw` | user-workspace/src/app/page.tsx:100-107 | from the sentinel -1 the first draw is always accepted, so any in-range index can be chosen |
| `Learner.OtherIndexReachable` | user-workspace/src/app/page.tsx:103-107 | with n ≥ 2, every index other than the previous one is chosen by some single draw |
| `Learner.PickIndex` | user-workspace/src/app/page.tsx:103-107 | the do-while loop returns the first accepted draw's index; it lies in `[0, n)` and differs from the previous index |
| `Learner.LearningPage.Mount` | user-workspace/src/app/page.tsx:11-48 | the list is read once with the learner defaults; index -1, no pair, lock free, nothing queued |
| `Learner.LearningPage.Speak` | user-workspace/src/app/page.tsx:50-83 | no capability: alert, nothing changes. Otherwise the channel is cancelled, the lock taken, and one utterance queued with the stored rate and pitch |
| `Learner.LearningPage.OnStart` | user-workspace/src/app/page.tsx:65-68 | the lock is held |
| `Learner.LearningPage.OnEnd` | user-workspace/src/app/page.tsx:70-74 | the utterance leaves the channel, the lock is released, and the completion callback runs if one was given |
| `Learner.LearningPage.OnError` | user-workspace/src/app/page.tsx:76-79 | the utterance leaves the channel and the lock is released; no completion callback runs |
| `Learner.LearningPage.SpeakWord` | user-workspace/src/app/page.tsx:85-89 | no current pair: nothing changes. Otherwise, with a speech capability, the lock is taken and the keyword is queued with the stored rate and pitch; without one, the alert is returned and nothing changes |
| `Learner.LearningPage.SpeakSentence` | user-workspace/src/app/page.tsx:91-95 | no current pair: nothing changes. Otherwise, with a speech capability, the lock is taken and the sentence is queued with the stored rate and pitch; without one, the alert is returned and nothing changes |
| `Learner.LearningPage.ShowNextPair` | user-workspace/src/app/page.tsx:97-117 | empty list: nothing changes, nothing spoken. One pair: index 0. Two or more: the first draw differing from the previous index. The chosen pair becomes current and only its keyword is spoken |
| `Learner.LearningPage.ButtonsEnabled` | user-workspace/src/app/page.tsx:140 | buttons are enabled exactly when the lock is free, and then no utterance is pending |
| `Learner.LearningPage.PairButtonsShown` | user-workspace/src/app/page.tsx:146 | "Word Only" and "Full Sentence" appear once a pair has been selected |
| `Learner.LearningPage.AdvanceLabel` | user-workspace/src/app/page.tsx:143 | the advance button reads "Start" exactly while no pair has been selected, else "Next" |
| `Learner.LearningPage.ClickAdvance` | user-workspace/src/app/page.tsx:138-144 | ignored while the lock is held. Otherwise it is `showNextPair`: nothing on an empty list, index 0 on one pair, the first accepted draw on more; the keyword is queued and the lock taken, or the alert returned with queue and lock unchanged. A pending utterance is never cut off |
| `Learner.LearningPage.ClickWord` | user-workspace/src/app/page.tsx:148-154 | ignored while the lock is held or before a pair is current. Otherwise it is `speakWord`: the keyword is queued and the lock taken, or the alert returned and nothing changes. A pending utterance is never cut off |
| `Learner.LearningPage.ClickSentence` | user-workspace/src/app/page.tsx:155-161 | ignored while the lock is held or before a pair is current. Otherwise it is `speakSentence`: the sentence is queued and the lock taken, or the alert returned and nothing changes. A pending utterance is never cut off |
| `Learner.TwoAdvances` | user-workspace/src/app/page.tsx:97-117 | two advances on a list of two or more pairs pick two different in-range indices |

## Left out

- Serialisation. `JSON.stringify`/`JSON.parse` are not modelled. A stored entry is its parsed value, the empty text, or malformed text.
- Wrong-shape records. A well-formed record of the wrong shape (settings under `"sentences"`, or the reverse) is read as malformed text. The source would hand the object on untyped. every write the pages make preserves `Storage.WellShaped`.
- Admin.AdminPage.Mount: on a malformed settings entry it keeps the default settings. The source's `JSON.parse` there (`admin/page.tsx:44-46`) is unguarded and throws inside the effect, which is not modelled.
- Failed list writes. A failing `setItem` in `saveSentences` would throw uncaught; the model lets list writes always succeed. Only the settings save has a failure path, as in the source.
- Numbers. All four settings are exact reals that are only copied through. `NaN`, float rounding and the input widgets' `min`/`max` clamping are not modelled.
- Learner.PickIndex: requires that some draw in `draws` is accepted. In the source the loop ends with probability 1; that probabilistic argument is not modelled. `Math.random()` is the `draws` parameter, and `Learner.OtherIndexReachable` shows an accepted draw always exists when n ≥ 2.
- The speech platform. It is a queue of pending utterances. Cancelling drops pending utterances without firing their events, and events arrive only for the pending utterance. Through the buttons the lock keeps the queue empty whenever `speak` cancels, so no pending utterance is ever cancelled there.
- Completion callbacks. No caller in the source passes an `onComplete` callback to `speak`. The model keeps the parameter as `notify` and counts `completions`.
- Unmount cleanup (`page.tsx:44-47`: clear the timeout, cancel the channel). The model has no torn-down state, and `timeoutRef` is never set in the source.
- Word delay and repeats. The learner page never reads `wordDelay` or `repeatCount` and never schedules a timer, so no word→delay→sentence sequencing is modelled.
- Side effects and rendering. `alert`, `confirm`, `console` logging, React's batching of state updates, and all rendering except the button label and enabled state are left out. `layout.tsx` is not part of this model.
