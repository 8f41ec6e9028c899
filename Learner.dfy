/** The learner page: random selection of the next pair without an immediate
    repeat, and speech playback behind an "is playing" lock that disables the
    page's buttons. The random source is an explicit sequence of draws in
    [0, 1), standing for successive results of `Math.random()`; the platform's
    speech channel is a queue of pending utterances. */
module Learner {
  import opened Wrappers
  import opened Storage

  const NoSpeechNotice := "Sorry, your browser does not support Speech Synthesis."
  const StartLabel := "Start"
  const NextLabel := "Next"

  /** `Math.floor(r * n)`: a draw scaled to an index. */
  function Draw(r: real, n: nat): (i: int)
    ensures i as real <= r * n as real < i as real + 1.0
  {
    (r * n as real).Floor
  }

  /** A draw from [0, 1) lands on an index of a list of length n. */
  lemma DrawInRange(r: real, n: nat)
    requires 0.0 <= r < 1.0 && n >= 1
    ensures 0 <= Draw(r, n) < n
  {
    assert 0.0 <= r * n as real;
    assert r * n as real < n as real by {
      assert (1.0 - r) * n as real > 0.0;
    }
  }

  /** Every index can be drawn: the draw t/n lands on t. */
  lemma EveryIndexDrawable(n: nat, t: int)
    requires 0 <= t < n
    ensures 0.0 <= t as real / n as real < 1.0 && Draw(t as real / n as real, n) == t
  {
    assert t as real / n as real * n as real == t as real;
  }

  /** Results of `Math.random()`: each in [0, 1). */
  predicate AreDraws(draws: seq<real>) {
    forall j :: 0 <= j < |draws| ==> 0.0 <= draws[j] < 1.0
  }

  /** The position of the first draw that does not land on `prev`, or
      `|draws|` when every draw does. */
  function FirstAccepted(draws: seq<real>, n: nat, prev: int): (k: nat)
    ensures k <= |draws|
    ensures forall j :: 0 <= j < k ==> Draw(draws[j], n) == prev
    ensures k < |draws| ==> Draw(draws[k], n) != prev
  {
    if draws == [] then 0
    else if Draw(draws[0], n) != prev then 0
    else 1 + FirstAccepted(draws[1..], n, prev)
  }

  /** The draws eventually give an index other than `prev`, so the
      rejection loop stops within them. */
  predicate Accepts(draws: seq<real>, n: nat, prev: int) {
    FirstAccepted(draws, n, prev) < |draws|
  }

  /** From the "none selected" sentinel (or any index outside the list) the
      very first draw is accepted, so every in-range index can be chosen. */
  lemma SentinelTakesFirstDraw(draws: seq<real>, n: nat, prev: int)
    requires AreDraws(draws) && draws != [] && n >= 1
    requires !(0 <= prev < n)
    ensures FirstAccepted(draws, n, prev) == 0
  {
    DrawInRange(draws[0], n);
  }

  /** With at least two pairs, every index other than `prev` is reachable by
      a single draw, so the rejection loop can always stop. */
  lemma OtherIndexReachable(n: nat, prev: int, t: int)
    requires n >= 2 && 0 <= t < n && t != prev
    ensures Accepts([t as real / n as real], n, prev)
    ensures Draw([t as real / n as real][FirstAccepted([t as real / n as real], n, prev)], n) == t
  {
    EveryIndexDrawable(n, t);
  }

  /** The do-while loop of `showNextPair` for lists of two or more pairs:
      draw until the index differs from `prev`. The result is the first
      accepted draw; it is in range and is never `prev`. */
  method PickIndex(n: nat, prev: int, draws: seq<real>) returns (next: int)
    requires n >= 1 && AreDraws(draws) && Accepts(draws, n, prev)
    ensures 0 <= next < n && next != prev
    ensures next == Draw(draws[FirstAccepted(draws, n, prev)], n)
  {
    ghost var first := FirstAccepted(draws, n, prev);
    var k := 0;
    next := Draw(draws[0], n);
    while next == prev
      invariant 0 <= k <= first < |draws|
      invariant next == Draw(draws[k], n)
      decreases first - k
    {
      k := k + 1;
      next := Draw(draws[k], n);
    }
    DrawInRange(draws[k], n);
  }

  /** One request to the speech channel: the text and the voice parameters
      read from the stored settings, and whether a completion callback was
      supplied. */
  datatype Utterance = Utterance(text: string, rate: real, pitch: real, notify: bool)

  /** The utterance `speak` queues for `text` against the store `items`. */
  function Voiced(items: map<string, Value>, text: string, notify: bool): (u: Utterance) {
    Utterance(text, StoredSettings(items).speechRate, StoredSettings(items).speechPitch, notify)
  }

  /** The learner page's state. `queue` is the shared speech channel's list of
      pending utterances; `spoken` records every text handed to it and
      `completions` every completion callback run. `shown` is the ghost
      history of selected indices. */
  class LearningPage {
    const storage: LocalStorage
    const speechAvailable: bool
    var sentences: seq<Pair>
    var currentIndex: int
    var currentPair: Option<Pair>
    var isPlaying: bool
    var queue: seq<Utterance>
    var spoken: seq<string>
    var completions: nat
    ghost var shown: seq<int>

    /** The lock is held exactly while an utterance is pending; the current
        pair is the one at the current index, or none before the first
        selection; with two or more pairs no index was selected twice in a
        row. */
    ghost predicate Valid()
      reads this
    {
      && (isPlaying <==> queue != []) && |queue| <= 1
      && -1 <= currentIndex < |sentences|
      && (currentIndex == -1 <==> currentPair == None)
      && (currentIndex != -1 ==> currentPair == Some(sentences[currentIndex]))
      && (shown == [] <==> currentIndex == -1)
      && (shown != [] ==> shown[|shown| - 1] == currentIndex)
      && (forall k :: 0 <= k < |shown| ==> 0 <= shown[k] < |sentences|)
      && (|sentences| >= 2 ==> forall k :: 1 <= k < |shown| ==> shown[k] != shown[k - 1])
    }

    /** Mounting reads the list once, with the learner page's defaults;
        nothing is selected and nothing is playing. */
    constructor Mount(storage: LocalStorage, speechAvailable: bool)
      ensures Valid()
      ensures this.storage == storage && this.speechAvailable == speechAvailable
      ensures sentences == LearnerSentences(storage.items)
      ensures currentIndex == -1 && currentPair == None && !isPlaying
      ensures queue == [] && spoken == [] && completions == 0 && shown == []
    {
      this.storage := storage;
      this.speechAvailable := speechAvailable;
      sentences := LearnerSentences(storage.items);
      currentIndex := -1;
      currentPair := None;
      isPlaying := false;
      queue, spoken, completions := [], [], 0;
      shown := [];
    }

    /** `speak`: without a speech capability, alert and change nothing.
        Otherwise cancel whatever is pending, take the lock, and queue one
        utterance of `text` with the stored rate and pitch. */
    method Speak(text: string, notify: bool) returns (alert: Option<string>)
      requires Valid()
      modifies this`isPlaying, this`queue, this`spoken
      ensures Valid()
      ensures speechAvailable ==>
        && alert == None && isPlaying
        && queue == [Voiced(storage.items, text, notify)]
        && spoken == old(spoken) + [text]
      ensures !speechAvailable ==>
        && alert == Some(NoSpeechNotice)
        && isPlaying == old(isPlaying) && queue == old(queue) && spoken == old(spoken)
    {
      if !speechAvailable {
        alert := Some(NoSpeechNotice);
        return;
      }
      queue := [];
      isPlaying := true;
      var settings := StoredSettings(storage.items);
      queue := queue + [Utterance(text, settings.speechRate, settings.speechPitch, notify)];
      spoken := spoken + [text];
      alert := None;
    }

    /** The pending utterance's `onstart`: the lock is (still) held. */
    method OnStart()
      requires Valid() && queue != []
      modifies this`isPlaying
      ensures Valid() && isPlaying
    {
      isPlaying := true;
    }

    /** The pending utterance's `onend`: it leaves the channel, the lock is
        released, and its completion callback, if any, runs. */
    method OnEnd()
      requires Valid() && queue != []
      modifies this`isPlaying, this`queue, this`completions
      ensures Valid() && !isPlaying
      ensures queue == old(queue)[1..] && queue == []
      ensures completions == old(completions) + (if old(queue)[0].notify then 1 else 0)
    {
      var u := queue[0];
      queue := queue[1..];
      isPlaying := false;
      if u.notify {
        completions := completions + 1;
      }
    }

    /** The pending utterance's `onerror`: it leaves the channel and the lock
        is released; no completion callback runs. */
    method OnError()
      requires Valid() && queue != []
      modifies this`isPlaying, this`queue
      ensures Valid() && !isPlaying
      ensures queue == old(queue)[1..] && queue == []
    {
      queue := queue[1..];
      isPlaying := false;
    }

    /** `speakWord`: speak the current keyword; nothing without a current pair. */
    method SpeakWord() returns (alert: Option<string>)
      requires Valid()
      modifies this`isPlaying, this`queue, this`spoken
      ensures Valid()
      ensures currentPair == None ==> alert == None && unchanged(this)
      ensures currentPair != None && speechAvailable ==>
                && alert == None && isPlaying
                && queue == [Voiced(storage.items, currentPair.value.keyword, false)]
                && spoken == old(spoken) + [currentPair.value.keyword]
      ensures currentPair != None && !speechAvailable ==>
                alert == Some(NoSpeechNotice) && unchanged(this)
    {
      alert := None;
      if currentPair.Some? {
        alert := Speak(currentPair.value.keyword, false);
      }
    }

    /** `speakSentence`: speak the current sentence; nothing without a current pair. */
    method SpeakSentence() returns (alert: Option<string>)
      requires Valid()
      modifies this`isPlaying, this`queue, this`spoken
      ensures Valid()
      ensures currentPair == None ==> alert == None && unchanged(this)
      ensures currentPair != None && speechAvailable ==>
                && alert == None && isPlaying
                && queue == [Voiced(storage.items, currentPair.value.sentence, false)]
                && spoken == old(spoken) + [currentPair.value.sentence]
      ensures currentPair != None && !speechAvailable ==>
                alert == Some(NoSpeechNotice) && unchanged(this)
    {
      alert := None;
      if currentPair.Some? {
        alert := Speak(currentPair.value.sentence, false);
      }
    }

    /** `showNextPair`: nothing on an empty list; index 0 on a one-pair list;
        otherwise the first draw that differs from the current index. The
        chosen pair becomes current and its keyword is spoken. */
    method ShowNextPair(draws: seq<real>) returns (alert: Option<string>)
      requires Valid() && AreDraws(draws)
      requires |sentences| >= 2 ==> Accepts(draws, |sentences|, currentIndex)
      modifies this`currentIndex, this`currentPair, this`isPlaying, this`queue, this`spoken, this`shown
      ensures Valid()
      ensures sentences == [] ==> alert == None && unchanged(this)
      ensures |sentences| == 1 ==> currentIndex == 0
      ensures |sentences| >= 2 ==>
        && currentIndex != old(currentIndex)
        && currentIndex == Draw(draws[FirstAccepted(draws, |sentences|, old(currentIndex))], |sentences|)
      ensures sentences != [] ==>
        && 0 <= currentIndex < |sentences|
        && currentPair == Some(sentences[currentIndex])
        && shown == old(shown) + [currentIndex]
        && (speechAvailable ==> alert == None && isPlaying)
        && (speechAvailable ==> queue == [Voiced(storage.items, sentences[currentIndex].keyword, false)])
        && (speechAvailable ==> spoken == old(spoken) + [sentences[currentIndex].keyword])
        && (!speechAvailable ==> && alert == Some(NoSpeechNotice) && isPlaying == old(isPlaying)
                                 && queue == old(queue) && spoken == old(spoken))
    {
      alert := None;
      if |sentences| == 0 {
        return;
      }
      var nextIndex := currentIndex;
      if |sentences| == 1 {
        nextIndex := 0;
      } else {
        nextIndex := PickIndex(|sentences|, currentIndex, draws);
      }
      currentIndex := nextIndex;
      var pair := sentences[nextIndex];
      currentPair := Some(pair);
      shown := shown + [nextIndex];
      alert := Speak(pair.keyword, false);
    }

    /** Every button is enabled exactly when the lock is free, and then no
        utterance is pending. */
    predicate ButtonsEnabled()
      reads this
      requires Valid()
      ensures ButtonsEnabled() <==> !isPlaying
      ensures ButtonsEnabled() ==> queue == []
    {
      !isPlaying
    }

    /** The "Word Only" and "Full Sentence" buttons are shown once a pair is current. */
    predicate PairButtonsShown()
      reads this
      requires Valid()
      ensures PairButtonsShown() <==> currentIndex != -1
    {
      currentPair.Some?
    }

    /** The advance button reads "Start" until the first pair has been
        selected and "Next" afterwards. */
    function AdvanceLabel(): (text: string)
      reads this
      requires Valid()
      ensures text == StartLabel <==> shown == []
      ensures text == StartLabel || text == NextLabel
    {
      if currentIndex == -1 then StartLabel else NextLabel
    }

    /** A click on the advance button: ignored while the lock is held;
        otherwise `showNextPair`. A click never cuts off a pending utterance. */
    method ClickAdvance(draws: seq<real>) returns (alert: Option<string>)
      requires Valid() && AreDraws(draws)
      requires |sentences| >= 2 ==> Accepts(draws, |sentences|, currentIndex)
      modifies this`currentIndex, this`currentPair, this`isPlaying, this`queue, this`spoken, this`shown
      ensures Valid()
      ensures old(isPlaying) ==> alert == None && unchanged(this)
      ensures old(queue) == [] || queue == old(queue)
      ensures !old(isPlaying) && sentences == [] ==> alert == None && unchanged(this)
      ensures !old(isPlaying) && |sentences| == 1 ==> currentIndex == 0
      ensures !old(isPlaying) && |sentences| >= 2 ==>
        && currentIndex != old(currentIndex)
        && currentIndex == Draw(draws[FirstAccepted(draws, |sentences|, old(currentIndex))], |sentences|)
      ensures !old(isPlaying) && sentences != [] ==>
        && 0 <= currentIndex < |sentences|
        && currentPair == Some(sentences[currentIndex])
        && shown == old(shown) + [currentIndex]
        && (speechAvailable ==> alert == None && isPlaying)
        && (speechAvailable ==> queue == [Voiced(storage.items, sentences[currentIndex].keyword, false)])
        && (speechAvailable ==> spoken == old(spoken) + [sentences[currentIndex].keyword])
        && (!speechAvailable ==> && alert == Some(NoSpeechNotice) && isPlaying == old(isPlaying)
                                 && queue == old(queue) && spoken == old(spoken))
    {
      alert := None;
      if ButtonsEnabled() {
        alert := ShowNextPair(draws);
      }
    }

    /** A click on "Word Only": ignored while the lock is held or before a
        pair is current. */
    method ClickWord() returns (alert: Option<string>)
      requires Valid()
      modifies this`isPlaying, this`queue, this`spoken
      ensures Valid()
      ensures old(isPlaying) || currentPair == None ==> alert == None && unchanged(this)
      ensures old(queue) == [] || queue == old(queue)
      ensures !old(isPlaying) && currentPair != None && speechAvailable ==>
                && alert == None && isPlaying
                && queue == [Voiced(storage.items, currentPair.value.keyword, false)]
                && spoken == old(spoken) + [currentPair.value.keyword]
      ensures !old(isPlaying) && currentPair != None && !speechAvailable ==>
                alert == Some(NoSpeechNotice) && unchanged(this)
    {
      alert := None;
      if ButtonsEnabled() && PairButtonsShown() {
        alert := SpeakWord();
      }
    }

    /** A click on "Full Sentence": ignored while the lock is held or before a
        pair is current. */
    method ClickSentence() returns (alert: Option<string>)
      requires Valid()
      modifies this`isPlaying, this`queue, this`spoken
      ensures Valid()
      ensures old(isPlaying) || currentPair == None ==> alert == None && unchanged(this)
      ensures old(queue) == [] || queue == old(queue)
      ensures !old(isPlaying) && currentPair != None && speechAvailable ==>
                && alert == None && isPlaying
                && queue == [Voiced(storage.items, currentPair.value.sentence, false)]
                && spoken == old(spoken) + [currentPair.value.sentence]
      ensures !old(isPlaying) && currentPair != None && !speechAvailable ==>
                alert == Some(NoSpeechNotice) && unchanged(this)
    {
      alert := None;
      if ButtonsEnabled() && PairButtonsShown() {
        alert := SpeakSentence();
      }
    }
  }

  /** A learner's session of two advances on a list of two or more pairs,
      the first utterance ending in between: the two selected indices are in
      range and differ, whatever the draws. */
  method TwoAdvances(page: LearningPage, d1: seq<real>, d2: seq<real>) returns (first: int, second: int)
    requires page.Valid() && !page.isPlaying && |page.sentences| >= 2 && page.speechAvailable
    requires AreDraws(d1) && Accepts(d1, |page.sentences|, page.currentIndex)
    requires AreDraws(d2)
    requires forall p :: 0 <= p < |page.sentences| ==> Accepts(d2, |page.sentences|, p)
    modifies page
    ensures 0 <= first < |page.sentences| && 0 <= second < |page.sentences|
    ensures first != second
  {
    var alert := page.ClickAdvance(d1);
    first := page.currentIndex;
    page.OnEnd();
    alert := page.ClickAdvance(d2);
    second := page.currentIndex;
  }
}
