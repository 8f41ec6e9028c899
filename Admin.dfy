/** The admin page: a validated add, a confirmed delete, the settings editor
    and the confirmed reset, over the page's in-memory state and the shared
    store. */
module Admin {
  import opened Wrappers
  import opened Text
  import opened Storage

  const MissingFieldMessage := "Please fill in both fields"
  const WrongCountMessage := "Please enter exactly three words for the sentence"
  const SettingsSavedNotice := "Settings saved successfully!"
  const SettingsFailedNotice := "Error saving settings. Please try again."
  const ClearedNotice := "All data has been cleared."

  /** Why an add is refused, in the order the checks run. */
  datatype AddError = MissingField | WrongWordCount {
    function Message(): (m: string) {
      match this
      case MissingField => MissingFieldMessage
      case WrongWordCount => WrongCountMessage
    }
  }

  /** The checks of `addSentence`: both trimmed inputs non-empty, then the
      trimmed sentence splitting into exactly three fields. An accepted pair
      is the two trimmed inputs. The keyword is only trimmed, never split. */
  function Validate(keyword: string, sentence: string): (r: Result<Pair, AddError>)
    ensures r == Err(MissingField) <==> Blank(keyword) || Blank(sentence)
    ensures r == Err(WrongWordCount) <==>
              !Blank(keyword) && !Blank(sentence) && |Split(Trim(sentence))| != 3
    ensures r.Ok? ==> r.value == Pair(Trim(keyword), Trim(sentence))
  {
    TrimEmptyIffBlank(keyword);
    TrimEmptyIffBlank(sentence);
    var k := Trim(keyword);
    var s := Trim(sentence);
    if k == [] || s == [] then Err(MissingField)
    else if |Split(s)| != 3 then Err(WrongWordCount)
    else Ok(Pair(k, s))
  }

  /** An accepted pair is a non-empty trimmed keyword and a sentence of
      exactly three words, with no white space at either end. */
  lemma AcceptedPairShape(keyword: string, sentence: string)
    requires Validate(keyword, sentence).Ok?
    ensures var p := Validate(keyword, sentence).value;
            && p.keyword != [] && IsTrimmed(p.keyword) && IsTrimmed(p.sentence)
            && |Split(p.sentence)| == 3
            && forall k :: 0 <= k < 3 ==> IsWord(Split(p.sentence)[k])
  {
    var p := Validate(keyword, sentence).value;
    SplitTrimmedGivesWords(p.sentence);
  }

  /** `xs.filter((_, i) => i !== index)`: drop the element at `index`, if any. */
  function Without<T>(xs: seq<T>, index: int): (r: seq<T>)
    ensures |r| == if 0 <= index < |xs| then |xs| - 1 else |xs|
    decreases |xs|
  {
    if xs == [] then []
    else (if index == 0 then [] else [xs[0]]) + Without(xs[1..], index - 1)
  }

  /** Deleting an index in range removes exactly that element and keeps the
      rest in order; deleting an index out of range changes nothing. */
  lemma {:induction false} WithoutSpec<T>(xs: seq<T>, index: int)
    ensures 0 <= index < |xs| ==> Without(xs, index) == xs[..index] + xs[index + 1..]
    ensures 0 <= index < |xs| ==> |Without(xs, index)| == |xs| - 1
    ensures !(0 <= index < |xs|) ==> Without(xs, index) == xs
    decreases |xs|
  {
    if xs != [] {
      WithoutSpec(xs[1..], index - 1);
      var rest := Without(xs[1..], index - 1);
      if index == 0 {
        assert Without(xs, index) == rest == xs[1..];
        assert xs[..0] + xs[1..] == xs[1..];
      } else if 0 < index < |xs| {
        assert Without(xs, index) == [xs[0]] + rest;
        assert rest == xs[1..][..index - 1] + xs[1..][index..];
        assert xs[..index] == [xs[0]] + xs[1..][..index - 1];
        assert xs[index + 1..] == xs[1..][index..];
      } else {
        assert Without(xs, index) == [xs[0]] + rest;
        assert rest == xs[1..];
        assert xs == [xs[0]] + xs[1..];
      }
    }
  }

  /** The four numeric inputs of the settings form. */
  datatype SettingsField = WordDelay | RepeatCount | SpeechRate | SpeechPitch

  function FieldValue(s: Settings, f: SettingsField): (r: real) {
    match f
    case WordDelay => s.wordDelay
    case RepeatCount => s.repeatCount
    case SpeechRate => s.speechRate
    case SpeechPitch => s.speechPitch
  }

  /** `{ ...settings, field: value }`: the edited field takes the new value and
      every other field keeps its old one. */
  function WithField(s: Settings, f: SettingsField, v: real): (r: Settings)
    ensures FieldValue(r, f) == v
    ensures forall g :: g != f ==> FieldValue(r, g) == FieldValue(s, g)
  {
    match f
    case WordDelay => s.(wordDelay := v)
    case RepeatCount => s.(repeatCount := v)
    case SpeechRate => s.(speechRate := v)
    case SpeechPitch => s.(speechPitch := v)
  }

  /** The multi-word keyword "very hungry" is accepted with the sentence
      "I am hungry": only the sentence's word count is checked. */
  lemma MultiWordKeywordAccepted()
    ensures Validate("very hungry", "I am hungry") == Ok(Pair("very hungry", "I am hungry"))
  {
    var ws, gaps := ["I", "am", "hungry"], [" ", " "];
    assert Join(ws, gaps) == "I am hungry" by {
      assert Join(ws[2..], gaps[2..]) == "hungry";
      assert Join(ws[1..], gaps[1..]) == "am" + " " + "hungry";
    }
    assert IsWord(ws[0]) && IsWord(ws[1]) && IsWord(ws[2]);
    assert IsSpace(gaps[0][0]) && IsSpace(gaps[1][0]);
    var k := "very hungry";
    assert !IsSpace(k[0]) && !IsSpace(k[|k| - 1]);
    assert "" + Join(ws, gaps) + "" == Join(ws, gaps);
    AcceptsThreeWords(k, "", ws, gaps, "");
    TrimOfTrimmed(k);
  }

  /** Any non-blank keyword is accepted with any three words separated by
      runs of white space and padded with white space at either end; the
      stored sentence is the three words and their gaps, without the padding. */
  lemma AcceptsThreeWords(keyword: string, lead: string, ws: seq<string>, gaps: seq<string>, trail: string)
    requires !Blank(keyword)
    requires |ws| == 3 && |gaps| == 2 && AreWords(ws) && AreGaps(gaps)
    requires Blank(lead) && Blank(trail)
    ensures Validate(keyword, lead + Join(ws, gaps) + trail) == Ok(Pair(Trim(keyword), Join(ws, gaps)))
  {
    PaddedJoinIsNotBlank(lead, ws, gaps, trail);
    SplitJoinRoundTrip(ws, gaps);
  }

  /** Any non-blank keyword with some other number of words, however they
      are separated and padded, is refused with the word-count error. */
  lemma RejectsOtherCounts(keyword: string, lead: string, ws: seq<string>, gaps: seq<string>, trail: string)
    requires !Blank(keyword)
    requires ws != [] && |ws| != 3 && |gaps| == |ws| - 1 && AreWords(ws) && AreGaps(gaps)
    requires Blank(lead) && Blank(trail)
    ensures Validate(keyword, lead + Join(ws, gaps) + trail) == Err(WrongWordCount)
  {
    PaddedJoinIsNotBlank(lead, ws, gaps, trail);
    SplitJoinRoundTrip(ws, gaps);
  }

  /** Padding a join of words trims back to the join, which is not blank. */
  lemma PaddedJoinIsNotBlank(lead: string, ws: seq<string>, gaps: seq<string>, trail: string)
    requires ws != [] && |gaps| == |ws| - 1 && AreWords(ws)
    requires Blank(lead) && Blank(trail)
    ensures Trim(lead + Join(ws, gaps) + trail) == Join(ws, gaps)
    ensures !Blank(lead + Join(ws, gaps) + trail)
  {
    var j := Join(ws, gaps);
    JoinStartsWithWord(ws, gaps);
    TrimPadded(lead, j, trail);
    TrimEmptyIffBlank(lead + j + trail);
  }

  /** The missing-field check comes first: a blank sentence is always the
      missing-field error, never the word-count error, whatever the keyword. */
  lemma BlankSentenceIsMissingField(keyword: string, sentence: string)
    requires Blank(sentence)
    ensures Validate(keyword, sentence) == Err(MissingField)
  {
  }

  /** Whether a pair is accepted depends on the keyword only through its being
      non-blank. */
  lemma KeywordOnlyNeedsContent(k1: string, k2: string, sentence: string)
    requires !Blank(k1) && !Blank(k2)
    ensures Validate(k1, sentence).Ok? == Validate(k2, sentence).Ok?
    ensures Validate(k1, sentence).Err? ==> Validate(k1, sentence) == Validate(k2, sentence)
  {
  }

  /** The admin page's state: the list as last loaded, the two text inputs,
      the inline error, the settings form, and the store it writes. */
  class AdminPage {
    const storage: LocalStorage
    var sentences: seq<Pair>
    var keyword: string
    var sentence: string
    var error: string
    var settings: Settings

    /** Mounting loads the list and, when a settings record is stored, the
        settings. */
    constructor Mount(storage: LocalStorage)
      ensures this.storage == storage
      ensures sentences == AdminSentences(storage.items, [])
      ensures settings == StoredSettings(storage.items)
      ensures keyword == "" && sentence == "" && error == ""
    {
      this.storage := storage;
      sentences := AdminSentences(storage.items, []);
      keyword, sentence, error := "", "", "";
      settings := StoredSettings(storage.items);
    }

    /** `loadSentences`: refresh the list from the store. */
    method LoadSentences()
      modifies this`sentences
      ensures sentences == AdminSentences(storage.items, old(sentences))
    {
      sentences := AdminSentences(storage.items, sentences);
    }

    /** `saveSentences`: write the list, then reload it; the page then shows
        exactly the list written. */
    method SaveSentences(xs: seq<Pair>)
      modifies this`sentences, storage
      ensures storage.items == old(storage.items)[SentencesKey := PairList(xs)]
      ensures sentences == xs
    {
      storage.SetItem(SentencesKey, PairList(xs));
      LoadSentences();
      SentencesRoundTrip(old(storage.items), xs, old(sentences));
    }

    /** Typing in the keyword input. */
    method EditKeyword(v: string)
      modifies this`keyword
      ensures keyword == v
    {
      keyword := v;
    }

    /** Typing in the sentence input. */
    method EditSentence(v: string)
      modifies this`sentence
      ensures sentence == v
    {
      sentence := v;
    }

    /** `addSentence`. A refused pair sets the matching error and leaves the
        list, the inputs and the store as they were. An accepted pair clears
        the error and both inputs and appends the trimmed pair after all
        earlier pairs, in the page and in the store. */
    method AddSentence()
      modifies this`sentences, this`keyword, this`sentence, this`error, storage
      ensures Validate(old(keyword), old(sentence)).Err? ==>
        && error == Validate(old(keyword), old(sentence)).error.Message()
        && sentences == old(sentences) && keyword == old(keyword) && sentence == old(sentence)
        && storage.items == old(storage.items)
      ensures Validate(old(keyword), old(sentence)).Ok? ==>
        && error == "" && keyword == "" && sentence == ""
        && sentences == old(sentences) + [Validate(old(keyword), old(sentence)).value]
        && storage.items == old(storage.items)[SentencesKey := PairList(sentences)]
    {
      var v := Validate(keyword, sentence);
      if v.Err? {
        error := v.error.Message();
        return;
      }
      error := "";
      SaveSentences(sentences + [v.value]);
      keyword := "";
      sentence := "";
    }

    /** `deleteSentence`: on a confirmed delete the list loses the element at
        `index` (none, if out of range) and is saved; otherwise nothing
        changes. */
    method DeleteSentence(index: int, confirmed: bool)
      modifies this`sentences, storage
      ensures confirmed ==> && sentences == Without(old(sentences), index)
                            && storage.items == old(storage.items)[SentencesKey := PairList(sentences)]
      ensures !confirmed ==> sentences == old(sentences) && storage.items == old(storage.items)
    {
      if confirmed {
        SaveSentences(Without(sentences, index));
      }
    }

    /** A keystroke in one settings input: only that field changes, and only
        in memory. */
    method EditSetting(f: SettingsField, v: real)
      modifies this`settings
      ensures settings == WithField(old(settings), f, v)
    {
      settings := WithField(settings, f, v);
    }

    /** `saveSettings`: write the settings and report success, or, when the
        store refuses the write, report the failure and leave the store as it
        was. The in-memory settings are unchanged either way. */
    method SaveSettings(writeFails: bool) returns (notice: string)
      modifies storage
      ensures !writeFails ==> && storage.items == old(storage.items)[SettingsKey := SettingsRecord(settings)]
                              && notice == SettingsSavedNotice
      ensures writeFails ==> storage.items == old(storage.items) && notice == SettingsFailedNotice
    {
      if writeFails {
        notice := SettingsFailedNotice;
      } else {
        storage.SetItem(SettingsKey, SettingsRecord(settings));
        notice := SettingsSavedNotice;
      }
    }

    /** `clearAllData`: when confirmed, both keys leave the store, the list
        becomes empty and the settings return to their defaults; otherwise
        nothing changes. */
    method ClearAllData(confirmed: bool) returns (notice: Option<string>)
      modifies this`sentences, this`settings, storage
      ensures confirmed ==> && storage.items == old(storage.items) - {SentencesKey, SettingsKey}
                            && sentences == [] && settings == DefaultSettings
                            && notice == Some(ClearedNotice)
      ensures !confirmed ==> && storage.items == old(storage.items)
                             && sentences == old(sentences) && settings == old(settings)
                             && notice == None
    {
      if confirmed {
        storage.RemoveItem(SentencesKey);
        storage.RemoveItem(SettingsKey);
        assert storage.items == old(storage.items) - {SentencesKey, SettingsKey};
        sentences := [];
        settings := DefaultSettings;
        notice := Some(ClearedNotice);
      } else {
        notice := None;
      }
    }
  }
}
