/**
 * The text-to-speech announcement queue of the dashboard: texts are spoken
 * one at a time in the order they were queued, nothing is spoken while the
 * browser blocks speech or announcements are switched off, and the voice is
 * chosen by language and a preference for female voices.
 *
 * The browser's speech engine is left outside: `speak` records the
 * utterance it hands over, and the engine's `end` and `error` events and the
 * expiry of a gap timer are methods the environment calls.
 */
module TtsQueue {
  import opened Common
  import opened Text

  /** A voice the speech engine offers; either attribute may be missing. */
  datatype Voice = Voice(name: Option<string>, lang: Option<string>)

  /** A queued announcement with its own pause afterwards, if it has one. */
  datatype QueueItem = QueueItem(text: string, gapAfter: Option<int>)

  /** What is handed to the speech engine. */
  datatype Utterance = Utterance(text: string, voice: Option<Voice>, lang: string, gapAfter: int)

  const FEMALE_HINTS: seq<string> := ["female", "woman", "perempuan", "wanita", "putri", "siti"]

  // ---------------------------------------------------------------------
  // pickBestVoice
  // ---------------------------------------------------------------------

  /** The voice's language starts with the wanted one, case ignored. */
  predicate SpeaksLang(v: Voice, lang: string)
  {
    v.lang.Some? && StartsWith(ToLower(v.lang.value), ToLower(lang))
  }

  /** The voice's name contains one of the female hints, case ignored. */
  predicate IsFemale(v: Voice)
  {
    v.name.Some? && exists k | 0 <= k < |FEMALE_HINTS| :: Contains(ToLower(v.name.value), FEMALE_HINTS[k])
  }

  /** The voices that speak the language, in order. */
  function ByLang(voices: seq<Voice>, lang: string): (r: seq<Voice>)
    ensures forall v :: v in r <==> v in voices && SpeaksLang(v, lang)
  {
    if voices == [] then []
    else
      var v := voices[|voices| - 1];
      ByLang(voices[..|voices| - 1], lang) + (if SpeaksLang(v, lang) then [v] else [])
  }

  /** The index of the first female voice of the pool, if there is one. */
  function FirstFemale(pool: seq<Voice>): (r: Option<nat>)
    ensures r.Some? ==> r.value < |pool| && IsFemale(pool[r.value])
    ensures r.Some? ==> forall j :: 0 <= j < r.value ==> !IsFemale(pool[j])
    ensures r.None? ==> forall j :: 0 <= j < |pool| ==> !IsFemale(pool[j])
  {
    if pool == [] then None
    else if IsFemale(pool[0]) then Some(0)
    else
      match FirstFemale(pool[1..])
      case None => None
      case Some(i) => Some(i + 1)
  }

  /**
   * `pickBestVoice`: nothing from an empty list; otherwise, among the voices
   * of the language (or all voices when none speaks it), the first female
   * one, or else the first one.
   */
  function PickBestVoice(voices: seq<Voice>, lang: string): (r: Option<Voice>)
    ensures r.None? <==> voices == []
    ensures r.Some? ==> r.value in voices
    ensures r.Some? && (exists v :: v in voices && SpeaksLang(v, lang)) ==> SpeaksLang(r.value, lang)
    ensures (exists v :: v in voices && SpeaksLang(v, lang) && IsFemale(v)) ==> r.Some? && IsFemale(r.value)
    ensures (forall v :: v in voices ==> !SpeaksLang(v, lang)) && (exists v :: v in voices && IsFemale(v)) ==>
      r.Some? && IsFemale(r.value)
    ensures var byLang := ByLang(voices, lang);
      var pool := if byLang != [] then byLang else voices;
      voices != [] ==> r == Some(if FirstFemale(pool).Some? then pool[FirstFemale(pool).value] else pool[0])
  {
    if |voices| == 0 then None
    else
      var byLang := ByLang(voices, lang);
      var pool := if |byLang| > 0 then byLang else voices;
      match FirstFemale(pool)
      case Some(i) => Some(pool[i])
      case None => Some(pool[0])
  }

  /** When no voice is female the first voice of the pool is taken: the first of the language, or the first at all. */
  lemma PickFirstWithoutFemale(voices: seq<Voice>, lang: string)
    requires voices != [] && forall v :: v in voices ==> !IsFemale(v)
    ensures var byLang := ByLang(voices, lang);
      PickBestVoice(voices, lang) == Some(if byLang != [] then byLang[0] else voices[0])
  {
    var byLang := ByLang(voices, lang);
    var pool := if |byLang| > 0 then byLang else voices;
    assert forall j :: 0 <= j < |pool| ==> pool[j] in voices;
  }

  /** The gap after an item: its own when given, 0 included, else the queue's default. */
  function GapOf(item: QueueItem, gapMs: int): (r: int)
    ensures item.gapAfter.None? ==> r == gapMs
    ensures item.gapAfter.Some? ==> r == item.gapAfter.value
  {
    match item.gapAfter
    case Some(g) => g
    case None => gapMs
  }

  /** `cachedVoice?.lang || lang`: the voice's own language when it has a non-empty one. */
  function UtteranceLang(voice: Option<Voice>, lang: string): (r: string)
    ensures voice.Some? && Present(voice.value.lang) ==> r == voice.value.lang.value
    ensures !(voice.Some? && Present(voice.value.lang)) ==> r == lang
  {
    if voice.Some? && Present(voice.value.lang) then voice.value.lang.value else lang
  }

  // ---------------------------------------------------------------------
  // The queue
  // ---------------------------------------------------------------------

  /** The state `useTtsQueue` keeps, and what it has handed to the speech engine. */
  class Announcer {
    const supported: bool
    const lang: string
    const gapMs: int
    var enabled: bool
    var blocked: bool
    var speaking: bool
    var queue: seq<QueueItem>
    var voices: seq<Voice>
    var cachedVoice: Option<Voice>
    var spoken: seq<Utterance>
    /** Gap timers started by `onend` that have not fired yet. */
    ghost var pendingGaps: nat

    /**
     * Without speech support nothing is ever queued or spoken; when
     * announcements are off nothing waits; and an item never waits while the
     * engine is idle, unblocked and no gap timer is running.
     */
    ghost predicate Valid()
      reads this
    {
      && Settled()
      && (queue != [] ==> speaking || blocked || pendingGaps > 0)
    }

    /** The part of `Valid` that holds between the steps of an event handler too. */
    ghost predicate Settled()
      reads this
    {
      && Unsupported()
      && (!enabled ==> queue == [])
    }

    /** Without speech support nothing is queued, spoken or blocked. */
    ghost predicate Unsupported()
      reads this
    {
      !supported ==> queue == [] && spoken == [] && !speaking && !blocked
    }

    /** The utterance `speak` builds for an item with the current voice. */
    function Announce(item: QueueItem): Utterance
      reads this
    {
      Utterance(item.text, cachedVoice, UtteranceLang(cachedVoice, lang), GapOf(item, gapMs))
    }

    constructor(supported: bool, enabled: bool, lang: string, gapMs: int, voices: seq<Voice>)
      ensures Valid()
      ensures this.supported == supported && this.enabled == enabled && this.lang == lang && this.gapMs == gapMs
      ensures this.voices == voices && queue == [] && spoken == [] && !speaking && !blocked && pendingGaps == 0
      ensures cachedVoice == if supported then PickBestVoice(voices, lang) else None
    {
      this.supported := supported;
      this.enabled := enabled;
      this.lang := lang;
      this.gapMs := gapMs;
      this.voices := voices;
      blocked := false;
      speaking := false;
      queue := [];
      spoken := [];
      pendingGaps := 0;
      cachedVoice := if supported then PickBestVoice(voices, lang) else None;
    }

    /** `refreshVoices`: the voice is picked again from the engine's current list. */
    method RefreshVoices()
      modifies this
      ensures cachedVoice == if supported then PickBestVoice(voices, lang) else old(cachedVoice)
      ensures enabled == old(enabled) && blocked == old(blocked) && speaking == old(speaking)
      ensures queue == old(queue) && voices == old(voices) && spoken == old(spoken) && pendingGaps == old(pendingGaps)
    {
      if !supported {
        return;
      }
      cachedVoice := PickBestVoice(voices, lang);
    }

    /** The engine's `voiceschanged` event: a new voice list, and the voice picked again. */
    method VoicesChanged(newVoices: seq<Voice>)
      requires Valid()
      modifies this
      ensures Valid()
      ensures voices == newVoices
      ensures cachedVoice == if supported then PickBestVoice(newVoices, lang) else old(cachedVoice)
      ensures enabled == old(enabled) && blocked == old(blocked) && speaking == old(speaking)
      ensures queue == old(queue) && spoken == old(spoken) && pendingGaps == old(pendingGaps)
    {
      voices := newVoices;
      RefreshVoices();
    }

    /**
     * `speak`: unless speech is unsupported, blocked or switched off, the
     * voice is picked again and one utterance is handed to the engine.
     */
    method Speak(item: QueueItem)
      modifies this
      ensures !supported || old(blocked) || !old(enabled) ==>
        && spoken == old(spoken) && speaking == old(speaking) && cachedVoice == old(cachedVoice)
      ensures supported && !old(blocked) && old(enabled) ==>
        && cachedVoice == PickBestVoice(voices, lang)
        && spoken == old(spoken) + [Announce(item)]
        && speaking
      ensures enabled == old(enabled) && blocked == old(blocked) && queue == old(queue)
      ensures voices == old(voices) && pendingGaps == old(pendingGaps)
    {
      if !supported || blocked || !enabled {
        return;
      }
      RefreshVoices();
      speaking := true;
      spoken := spoken + [Announce(item)];
    }

    /**
     * `playNext`: nothing while speaking, blocked or switched off, or with
     * nothing queued; otherwise exactly the head of the queue is taken and
     * spoken. Whatever the state before, the queue is valid afterwards.
     */
    method PlayNext()
      requires Settled()
      modifies this
      ensures Valid()
      ensures !supported || old(speaking) || old(blocked) || !old(enabled) || old(queue) == [] ==>
        && queue == old(queue) && spoken == old(spoken) && speaking == old(speaking) && cachedVoice == old(cachedVoice)
      ensures supported && !old(speaking) && !old(blocked) && old(enabled) && old(queue) != [] ==>
        && queue == old(queue)[1..]
        && cachedVoice == PickBestVoice(voices, lang)
        && spoken == old(spoken) + [Announce(old(queue)[0])]
        && speaking
      ensures enabled == old(enabled) && blocked == old(blocked) && voices == old(voices) && pendingGaps == old(pendingGaps)
    {
      if !supported || speaking || blocked || !enabled {
        return;
      }
      if |queue| == 0 {
        return;
      }
      var next := queue[0];
      queue := queue[1..];
      Speak(next);
    }

    /**
     * `enqueue`: ignored without support or when switched off; otherwise the
     * item goes to the tail and the head is started if the engine is free.
     */
    method Enqueue(text: string, gapAfter: Option<int>)
      requires Valid()
      modifies this
      ensures Valid()
      ensures !supported || !old(enabled) ==>
        queue == old(queue) && spoken == old(spoken) && speaking == old(speaking) && cachedVoice == old(cachedVoice)
      ensures supported && old(enabled) && (old(speaking) || old(blocked)) ==>
        queue == old(queue) + [QueueItem(text, gapAfter)] && spoken == old(spoken)
      ensures supported && old(enabled) && !old(speaking) && !old(blocked) ==>
        var waiting := old(queue) + [QueueItem(text, gapAfter)];
        && queue == waiting[1..]
        && spoken == old(spoken) + [Announce(waiting[0])]
        && speaking
      ensures enabled == old(enabled) && blocked == old(blocked) && voices == old(voices) && pendingGaps == old(pendingGaps)
    {
      if !supported || !enabled {
        return;
      }
      queue := queue + [QueueItem(text, gapAfter)];
      PlayNext();
    }

    /**
     * The utterance's `end` event: the engine is free again; after a
     * positive gap a timer starts, otherwise the next item is started at
     * once.
     */
    method OnEnd()
      requires Valid() && spoken != []
      modifies this
      ensures Valid()
      ensures var gap := old(spoken)[|old(spoken)| - 1].gapAfter;
        && (gap > 0 ==> pendingGaps == old(pendingGaps) + 1 && !speaking && queue == old(queue) && spoken == old(spoken))
        && (gap <= 0 ==> pendingGaps == old(pendingGaps))
        && (gap <= 0 && !old(blocked) && old(enabled) && old(queue) != [] ==>
              queue == old(queue)[1..] && spoken == old(spoken) + [Announce(old(queue)[0])] && speaking)
        && (gap <= 0 && (!supported || old(blocked) || !old(enabled) || old(queue) == []) ==>
              queue == old(queue) && spoken == old(spoken) && !speaking)
      ensures enabled == old(enabled) && blocked == old(blocked) && voices == old(voices)
    {
      var gap := spoken[|spoken| - 1].gapAfter;
      speaking := false;
      if gap > 0 {
        pendingGaps := pendingGaps + 1;
      } else {
        PlayNext();
      }
    }

    /** A gap timer fires: the next item is started if the engine is free. */
    method GapElapsed()
      requires Valid() && pendingGaps > 0
      modifies this
      ensures Valid()
      ensures pendingGaps == old(pendingGaps) - 1
      ensures !old(speaking) && !old(blocked) && old(enabled) && old(queue) != [] ==>
        queue == old(queue)[1..] && spoken == old(spoken) + [Announce(old(queue)[0])] && speaking
      ensures old(speaking) || old(blocked) || old(queue) == [] ==>
        queue == old(queue) && spoken == old(spoken) && speaking == old(speaking)
      ensures enabled == old(enabled) && blocked == old(blocked) && voices == old(voices)
    {
      pendingGaps := pendingGaps - 1;
      PlayNext();
    }

    /**
     * The utterance's `error` event (autoplay refused, permission missing),
     * and equally an exception inside `speak`: the engine is free and the
     * queue is blocked until `resume`.
     */
    method OnError()
      requires Valid() && spoken != []
      modifies this
      ensures Valid()
      ensures blocked && !speaking
      ensures queue == old(queue) && spoken == old(spoken) && enabled == old(enabled)
      ensures cachedVoice == old(cachedVoice) && voices == old(voices) && pendingGaps == old(pendingGaps)
    {
      speaking := false;
      blocked := true;
    }

    /** `resume`: the block is lifted and the next item is started if the engine is free. */
    method Resume()
      requires Valid()
      modifies this
      ensures Valid()
      ensures supported ==> !blocked
      ensures supported && !old(speaking) && old(enabled) && old(queue) != [] ==>
        queue == old(queue)[1..] && spoken == old(spoken) + [Announce(old(queue)[0])] && speaking
      ensures !supported || old(speaking) || old(queue) == [] ==>
        queue == old(queue) && spoken == old(spoken) && speaking == old(speaking)
      ensures enabled == old(enabled) && voices == old(voices) && pendingGaps == old(pendingGaps)
    {
      if !supported {
        return;
      }
      blocked := false;
      PlayNext();
    }

    /** `stop`: everything queued is dropped and the engine counts as free. */
    method Stop()
      requires Unsupported()
      modifies this
      ensures Valid()
      ensures queue == [] && !speaking
      ensures spoken == old(spoken) && blocked == old(blocked) && enabled == old(enabled)
      ensures cachedVoice == old(cachedVoice) && voices == old(voices) && pendingGaps == old(pendingGaps)
    {
      if !supported {
        return;
      }
      queue := [];
      speaking := false;
    }

    /**
     * The watcher on `enabled`: switching off stops everything; switching
     * on calls `playNext`, which finds nothing queued, since nothing is
     * queued while disabled; setting the same value again does nothing.
     */
    method SetEnabled(value: bool)
      requires Valid()
      modifies this
      ensures Valid()
      ensures enabled == value
      ensures value != old(enabled) && !value ==> queue == [] && (supported ==> !speaking) && spoken == old(spoken)
      ensures value && !old(enabled) ==> queue == old(queue) == [] && spoken == old(spoken) && speaking == old(speaking)
      ensures value == old(enabled) ==> queue == old(queue) && spoken == old(spoken) && speaking == old(speaking)
      ensures blocked == old(blocked) && voices == old(voices) && pendingGaps == old(pendingGaps)
    {
      var changed := value != enabled;
      enabled := value;
      if !changed {
        return;
      }
      if !value {
        Stop();
      } else {
        PlayNext();
      }
    }
  }
}
