/**
 * The chanting page (`Home`): the tally with its mala rollover, the guarded save of the
 * counters, the optimistic daily count, the session timer, the `HH:MM:SS` clock text, the
 * choice `speak` makes between its playback paths, and the auto-chant cycle effect with its
 * cleanup. The page is a class. Each method is one event the browser, React or the document
 * store delivers. After a handler changes `isChanting`, `mode` or an audio setting, the method
 * also runs the effect cleanup and setup that React performs on the next commit.
 *
 * The class runs the corrected rejection handler of `HomeAudio.Settle`, which detaches a rejected
 * play's `'ended'` listener. Its invariant (one callback to come while the cycle runs) and the
 * at-most-one-increment guarantees of its audio events hold for that corrected page.
 */
module Home {
  import opened Wrappers
  import opened Decimal
  import opened Tally
  import opened HomeAudio

  datatype Mode = Manual | Auto

  /** `AudioSource`: speech (`"ai"`) or an audio clip (`"custom"`). */
  datatype AudioSource = Ai | Custom

  /** The page state the settings panel writes and `speak` reads. */
  datatype AudioSettings = AudioSettings(
    chantText: string,
    chantSpeed: int,
    audioSource: AudioSource,
    voiceName: Option<string>,
    voiceLang: Option<string>,
    customAudioUrl: Option<string>)

  /** The initial values of the page's `useState` calls. */
  const InitialSettings: AudioSettings :=
    AudioSettings("राधा राधा", 50, Custom, Some("hi-IN-Wavenet-D"), Some("hi-IN"),
                  Some("/audio/Gausalla Street 2.m4a"))

  // ---------------------------------------------------------------------------------------
  // formatTime

  lemma TwoDigitDecimal(n: nat)
    ensures n < 100 ==> |ToDecimal(n)| <= 2
  {
    if n < 100 {
      assert Pow10(2) == 100;
      DecimalLength(n, 2);
    }
  }

  /** `n.toString().padStart(2, '0')`: at least two characters, exactly two below 100. */
  function Pad2(n: nat): (r: string)
    ensures |r| >= 2
    ensures n < 100 ==> |r| == 2
  {
    TwoDigitDecimal(n);
    PadStart(ToDecimal(n), 2, '0')
  }

  /** The padded field is all digits and denotes `n`. */
  lemma Pad2Value(n: nat)
    ensures AllDigits(Pad2(n)) && Value(Pad2(n)) == n
  {
    var d := ToDecimal(n);
    ValueOfDecimal(n);
    if |d| < 2 {
      assert Pad2(n) == Repeat('0', 2 - |d|) + d;
      ValueIgnoresLeadingZeros(2 - |d|, d);
    }
  }

  /** `H...H:MM:SS`: at least eight characters, with colons before the last two pairs. */
  predicate ClockShaped(t: string) {
    |t| >= 8 && t[|t| - 6] == ':' && t[|t| - 3] == ':'
  }

  /** The text `formatTime` builds from its three fields. */
  function ClockText(h: nat, m: nat, s: nat): (t: string)
    requires m < 60 && s < 60
    ensures ClockShaped(t)
    ensures h < 100 ==> |t| == 8
  {
    var a, b, c := Pad2(h), Pad2(m), Pad2(s);
    JoinedColons(a, b, c);
    a + ":" + b + ":" + c
  }

  lemma JoinedColons(h: string, m: string, s: string)
    requires |h| >= 2 && |m| == 2 && |s| == 2
    ensures |h + ":" + m + ":" + s| == |h| + 6 && ClockShaped(h + ":" + m + ":" + s)
  {
    var t := h + ":" + m + ":" + s;
    assert t[|h|] == ':' && t[|h| + 3] == ':';
  }

  /** `formatTime`: hours, minutes and seconds, each zero-padded to at least two digits. */
  function FormatTime(seconds: nat): (t: string)
    ensures ClockShaped(t)
    ensures seconds < 360000 ==> |t| == 8
  {
    var h, m, s := seconds / 3600, seconds % 3600 / 60, seconds % 60;
    ClockBounds(seconds);
    ClockText(h, m, s)
  }

  /** Reads a clock text back: `H...H:MM:SS`, minutes and seconds below 60. */
  function ParseClock(t: string): Option<nat> {
    if ClockShaped(t) then
      ParseFields(t[..|t| - 6], t[|t| - 5..|t| - 3], t[|t| - 2..])
    else None
  }

  /** The seconds that digit fields for hours, minutes and seconds denote. */
  function ParseFields(h: string, m: string, s: string): Option<nat> {
    if AllDigits(h) && AllDigits(m) && AllDigits(s) && Value(m) < 60 && Value(s) < 60 then
      Some(Value(h) * 3600 + Value(m) * 60 + Value(s))
    else None
  }

  /** Euclidean division has one quotient and one remainder. */
  lemma DivModUnique(n: int, d: int, q: int, r: int)
    requires d > 0 && n == q * d + r && 0 <= r < d
    ensures n / d == q && n % d == r
  {
    var k := q - n / d;
    assert k * d == n % d - r;
    MultipleBound(k, d);
  }

  /** A non-zero multiple of a positive `d` is at least `d` away from zero. */
  lemma MultipleBound(k: int, d: int)
    requires d > 0
    ensures k >= 1 ==> k * d >= d
    ensures k <= -1 ==> k * d <= -d
  {
    if k >= 1 {
      assert k * d == (k - 1) * d + d;
      assert (k - 1) * d >= 0;
    } else if k <= -1 {
      assert k * d == (k + 1) * d - d;
      assert (k + 1) * d <= 0;
    }
  }

  /** Minutes stay below 60, and hours below 100 for fewer than 100 hours of seconds. */
  lemma ClockBounds(seconds: nat)
    ensures seconds % 3600 / 60 < 60
    ensures seconds < 360000 ==> seconds / 3600 < 100
  {
  }

  /** The three clock fields put back together give the seconds; minutes stay below 60. */
  lemma ClockArithmetic(seconds: nat)
    ensures seconds / 3600 * 3600 + seconds % 3600 / 60 * 60 + seconds % 60 == seconds
    ensures seconds % 3600 / 60 < 60
    ensures seconds < 360000 ==> seconds / 3600 < 100
  {
    var h, r := seconds / 3600, seconds % 3600;
    var m, x := r / 60, r % 60;
    assert seconds == h * 3600 + r && 0 <= r < 3600;
    assert r == m * 60 + x && 0 <= x < 60;
    assert (h * 60 + m) * 60 == h * 3600 + m * 60;
    DivModUnique(seconds, 60, h * 60 + m, x);
  }

  /** Three fields joined by colons are read back field by field. */
  lemma ParseClockFields(h: string, m: string, s: string)
    requires |h| >= 2 && |m| == 2 && |s| == 2
    ensures ParseClock(h + ":" + m + ":" + s) == ParseFields(h, m, s)
  {
    var u := h + ":" + m;
    var t := u + ":" + s;
    assert u[..|h|] == h && u[|h| + 1..] == m && u[|h|] == ':';
    assert t[..|u|] == u && t[|u| + 1..] == s && t[|u|] == ':';
    assert t[..|h|] == u[..|h|] && t[|h| + 1..|u|] == u[|h| + 1..] && t[|h|] == u[|h|];
  }

  /** Digit fields read back as the numbers they denote. */
  lemma FieldsValue(a: string, b: string, c: string, h: nat, m: nat, s: nat)
    requires AllDigits(a) && AllDigits(b) && AllDigits(c)
    requires Value(a) == h && Value(b) == m && Value(c) == s && m < 60 && s < 60
    ensures ParseFields(a, b, c) == Some(h * 3600 + m * 60 + s)
  {
  }

  /** A clock text with minutes and seconds below 60 reads back as its number of seconds. */
  lemma ClockTextRoundTrip(h: nat, m: nat, s: nat)
    requires m < 60 && s < 60
    ensures ParseClock(ClockText(h, m, s)) == Some(h * 3600 + m * 60 + s)
  {
    Pad2Value(h);
    Pad2Value(m);
    Pad2Value(s);
    ParseClockFields(Pad2(h), Pad2(m), Pad2(s));
    FieldsValue(Pad2(h), Pad2(m), Pad2(s), h, m, s);
  }

  /** The clock text always reads back as the number of seconds it was made from. */
  lemma FormatTimeRoundTrip(seconds: nat)
    ensures ParseClock(FormatTime(seconds)) == Some(seconds)
  {
    var h, m, s := seconds / 3600, seconds % 3600 / 60, seconds % 60;
    ClockArithmetic(seconds);
    assert FormatTime(seconds) == ClockText(h, m, s);
    ClockTextRoundTrip(h, m, s);
  }

  // ---------------------------------------------------------------------------------------
  // speak

  /** What one `speak` call does: complete at once, play the clip, message the native app, or synthesize. */
  datatype SpeakPath = EndAtOnce | PlayClip | NativeBridge | Synthesize

  predicate ClipApplies(s: AudioSettings, hasAudioElement: bool) {
    s.audioSource == Custom && Truthy(s.customAudioUrl) && hasAudioElement
  }

  predicate SpeechApplies(s: AudioSettings, hasSpeechSynthesis: bool) {
    hasSpeechSynthesis && Truthy(s.voiceName)
  }

  /**
   * The branch `speak` takes. The completion callback runs at once exactly when the page is
   * neither chanting nor in auto mode, or when no playback path applies.
   */
  function ChooseSpeakPath(isChanting: bool, mode: Mode, s: AudioSettings, hasAudioElement: bool,
                           isReactNative: bool, hasSpeechSynthesis: bool): (p: SpeakPath)
    ensures p == EndAtOnce <==>
              (!isChanting && mode != Auto) ||
              (!ClipApplies(s, hasAudioElement) && !isReactNative && !SpeechApplies(s, hasSpeechSynthesis))
    ensures p == PlayClip ==> ClipApplies(s, hasAudioElement)
    ensures p == NativeBridge ==> isReactNative && !ClipApplies(s, hasAudioElement)
    ensures p == Synthesize ==>
              SpeechApplies(s, hasSpeechSynthesis) && !isReactNative && !ClipApplies(s, hasAudioElement)
  {
    if !isChanting && mode != Auto then EndAtOnce
    else if ClipApplies(s, hasAudioElement) then PlayClip
    else if isReactNative then NativeBridge
    else if SpeechApplies(s, hasSpeechSynthesis) then Synthesize
    else EndAtOnce
  }

  // ---------------------------------------------------------------------------------------
  // The page

  class Home {
    // The environment, fixed for the page's lifetime.
    const signedIn: bool            // `user` is set
    const isReactNative: bool       // running inside the native app's web view
    const hasSpeechSynthesis: bool  // `window.speechSynthesis` exists

    // The document store, abstracted: users/{uid} and users/{uid}/daily_stats/{day}.chantCount.
    var userDoc: Option<TallyState>
    var dailyStats: map<string, nat>

    // Component state.
    var tally: TallyState           // `count` and `malas`
    var todaysJapa: int
    var mode: Mode
    var isChanting: bool
    var settings: AudioSettings
    var sessionTime: nat
    var timerRunning: bool          // `sessionTimerRef` holds an interval that is not cleared

    // `saveData`: `isSavingRef` and the values of the write in flight.
    var isSaving: bool
    var saveInFlight: Option<TallyState>
    // `updateDailyChantCount` calls still waiting for the store, by day key.
    var dailyInFlight: multiset<string>
    // The part of `todaysJapa` the store has confirmed (or that was loaded).
    ghost var settledJapa: int

    // The chant-cycle effect. Each run of the effect is an instance, numbered in order;
    // only the newest one's `isMounted` is still true, and only while the page is mounted.
    var mounted: bool
    var effect: nat
    var timeoutArmed: bool          // its `chantTimeout` is pending
    var audio: Element              // `audioRef.current`
    var nextCall: nat               // numbers the `speak` calls that attach a listener
    var speechPending: seq<nat>     // utterance `onend` and native-bridge timers not yet run, by instance

    /** The instance whose callbacks still act, if any. */
    ghost function Live(): Option<nat>
      reads this`mounted, this`effect
    {
      if mounted then Some(effect) else None
    }

    /** The auto cycle is running. */
    ghost predicate Running()
      reads this`mounted, this`mode, this`isChanting
    {
      mounted && mode == Auto && isChanting
    }

    /** Callbacks of the live instance that are still to come: its timeout, listeners and utterances. */
    ghost function Outstanding(): nat
      reads this`timeoutArmed, this`audio, this`speechPending, this`mounted, this`effect
    {
      (if timeoutArmed then 1 else 0) + LiveListeners(audio, Live()) + CountLive(speechPending, Live())
    }

    /** The invariant except for the cycle's one-callback equation and the timer. */
    ghost predicate Bookkept()
      reads this
    {
      CountersKept() && CycleKept()
    }

    /** A save is in flight exactly when its values are recorded; the day's count is the confirmed part plus the pending calls. */
    ghost predicate CountersKept()
      reads this`isSaving, this`saveInFlight, this`settledJapa, this`todaysJapa, this`dailyInFlight
    {
      (isSaving <==> saveInFlight.Some?) &&
      settledJapa >= 0 && todaysJapa == settledJapa + |dailyInFlight|
    }

    /** Manual mode never chants, an unmounted page runs nothing, and the audio element agrees with the instances. */
    ghost predicate CycleKept()
      reads this`mode, this`isChanting, this`mounted, this`timerRunning, this`timeoutArmed,
            this`audio, this`effect, this`nextCall, this`speechPending
    {
      (mode == Manual ==> !isChanting) &&
      (!mounted ==> !timerRunning && !timeoutArmed) &&
      Coherent(audio, Live(), effect, nextCall) &&
      (forall o :: o in speechPending ==> o <= effect)
    }

    /** The invariant survives a step that touches only the counters and keeps them consistent. */
    twostate lemma CountersStep()
      requires old(Valid()) && CountersKept()
      requires unchanged(this`mode, this`isChanting, this`mounted, this`timerRunning, this`timeoutArmed,
                         this`audio, this`effect, this`nextCall, this`speechPending)
      ensures Valid()
    {
      assert CycleKept() == old(CycleKept());
    }

    /**
     * The invariant while the callbacks of `fired` are being delivered: the interval runs
     * exactly while chanting, and a running cycle has exactly one callback coming (counting
     * `fired`), while a stopped one has none.
     */
    ghost predicate Awaiting(fired: seq<nat>)
      reads this
    {
      Bookkept() &&
      (mounted ==> timerRunning == isChanting) &&
      Outstanding() + CountLive(fired, Live()) == (if Running() then 1 else 0)
    }

    ghost predicate Valid()
      reads this
    {
      Awaiting([])
    }

    /** The effects of one `handleIncrement`. */
    twostate predicate IncrementApplied(today: string)
      reads this`tally, this`todaysJapa, this`dailyInFlight, this`isSaving, this`saveInFlight
    {
      tally == Increment(old(tally)) &&
      todaysJapa == old(todaysJapa) + (if signedIn then 1 else 0) &&
      dailyInFlight == old(dailyInFlight) + (if signedIn then multiset{today} else multiset{}) &&
      if signedIn && !old(isSaving) then isSaving && saveInFlight == Some(tally)
      else isSaving == old(isSaving) && saveInFlight == old(saveInFlight)
    }

    twostate predicate TallyUnchanged()
      reads this`tally, this`todaysJapa, this`dailyInFlight, this`isSaving, this`saveInFlight
    {
      tally == old(tally) && todaysJapa == old(todaysJapa) && dailyInFlight == old(dailyInFlight) &&
      isSaving == old(isSaving) && saveInFlight == old(saveInFlight)
    }

    /** What the current speak path makes of one `speak` call for instance `owner`, from element `base`. */
    twostate predicate Spoke(owner: nat, today: string, base: Element)
      reads this
    {
      var p := ChooseSpeakPath(isChanting, mode, settings, true, isReactNative, hasSpeechSynthesis);
      (p == EndAtOnce ==>
         IncrementApplied(today) && timeoutArmed && audio == base &&
         nextCall == old(nextCall) && speechPending == old(speechPending)) &&
      (p == PlayClip ==>
         TallyUnchanged() && !timeoutArmed && audio == Play(base, Listener(old(nextCall), owner)) &&
         nextCall == old(nextCall) + 1 && speechPending == old(speechPending)) &&
      (p == NativeBridge || p == Synthesize ==>
         TallyUnchanged() && !timeoutArmed && audio == base &&
         nextCall == old(nextCall) && speechPending == old(speechPending) + [owner])
    }

    /**
     * The page once mounted and loaded: the counters come from the user document, today's
     * count from today's daily document, in manual mode, not chanting.
     */
    constructor (signedIn: bool, isReactNative: bool, hasSpeechSynthesis: bool,
                 stored: Option<TallyState>, daily: map<string, nat>, today: string)
      ensures Valid()
      ensures this.signedIn == signedIn && this.isReactNative == isReactNative
      ensures this.hasSpeechSynthesis == hasSpeechSynthesis
      ensures userDoc == stored && dailyStats == daily
      ensures tally == (if signedIn && stored.Some? then stored.value else TallyState(0, 0))
      ensures todaysJapa == (if signedIn && today in daily then daily[today] else 0)
      ensures mode == Manual && !isChanting && settings == InitialSettings
      ensures sessionTime == 0 && !timerRunning && !isSaving && saveInFlight == None
      ensures dailyInFlight == multiset{} && mounted && !timeoutArmed && audio == Idle && speechPending == []
    {
      this.signedIn, this.isReactNative, this.hasSpeechSynthesis := signedIn, isReactNative, hasSpeechSynthesis;
      userDoc, dailyStats := stored, daily;
      tally := if signedIn && stored.Some? then stored.value else TallyState(0, 0);
      todaysJapa := if signedIn && today in daily then daily[today] else 0;
      settledJapa := todaysJapa;
      mode, isChanting, settings := Manual, false, InitialSettings;
      sessionTime, timerRunning := 0, false;
      isSaving, saveInFlight, dailyInFlight := false, None, multiset{};
      mounted, effect, timeoutArmed := true, 0, false;
      audio, nextCall, speechPending := Idle, 0, [];
    }

    /** `saveData`: starts a write unless one is in flight or nobody is signed in (then the call is dropped). */
    method SaveData(next: TallyState)
      modifies this`isSaving, this`saveInFlight
      ensures if signedIn && !old(isSaving) then isSaving && saveInFlight == Some(next)
              else isSaving == old(isSaving) && saveInFlight == old(saveInFlight)
    {
      if signedIn && !isSaving {
        isSaving := true;
        saveInFlight := Some(next);
      }
    }

    /** The write started by `saveData` succeeds or fails; either way the guard is released. */
    method SaveSettled(written: bool)
      requires Valid()
      modifies this`isSaving, this`saveInFlight, this`userDoc
      ensures Valid()
      ensures !isSaving && saveInFlight == None
      ensures userDoc == if written && old(saveInFlight).Some? then old(saveInFlight) else old(userDoc)
    {
      if written && saveInFlight.Some? {
        userDoc := saveInFlight;
      }
      isSaving := false;
      saveInFlight := None;
    }

    /** `updateDailyChantCount`'s part before the first `await`: the optimistic +1. */
    method UpdateDailyChantCount(today: string)
      modifies this`todaysJapa, this`dailyInFlight
      ensures todaysJapa == old(todaysJapa) + (if signedIn then 1 else 0)
      ensures dailyInFlight == old(dailyInFlight) + (if signedIn then multiset{today} else multiset{})
    {
      if signedIn {
        todaysJapa := todaysJapa + 1;
        dailyInFlight := dailyInFlight + multiset{today};
      }
    }

    /**
     * One `updateDailyChantCount` for `day` finishes. A write stores the existing count plus
     * one, or 1 when the day's document is absent; a failure undoes the optimistic +1.
     */
    method DailySettled(day: string, written: bool)
      requires Valid()
      modifies this`dailyInFlight, this`dailyStats, this`todaysJapa, this`settledJapa
      ensures Valid()
      ensures day !in old(dailyInFlight) ==>
                dailyInFlight == old(dailyInFlight) && dailyStats == old(dailyStats) && todaysJapa == old(todaysJapa)
      ensures day in old(dailyInFlight) ==> dailyInFlight == old(dailyInFlight) - multiset{day}
      ensures day in old(dailyInFlight) && written ==>
                dailyStats == old(dailyStats)[day := if day in old(dailyStats) then old(dailyStats)[day] + 1 else 1] &&
                todaysJapa == old(todaysJapa)
      ensures day in old(dailyInFlight) && !written ==>
                dailyStats == old(dailyStats) && todaysJapa == old(todaysJapa) - 1
      ensures todaysJapa >= 0
    {
      if day in dailyInFlight {
        var rest := dailyInFlight - multiset{day};
        assert dailyInFlight == rest + multiset{day};
        dailyInFlight := rest;
        if written {
          dailyStats := dailyStats[day := if day in dailyStats then dailyStats[day] + 1 else 1];
          settledJapa := settledJapa + 1;
        } else {
          todaysJapa := todaysJapa - 1;
        }
      }
      CountersStep();
    }

    /** `handleIncrement`: the daily count, the mala rollover and the save of the new counters. */
    method HandleIncrement(today: string)
      modifies this`tally, this`todaysJapa, this`dailyInFlight, this`isSaving, this`saveInFlight
      ensures IncrementApplied(today)
    {
      UpdateDailyChantCount(today);
      var next := Increment(tally);
      tally := next;
      SaveData(next);
    }

    /** One second of the session interval: the clock advances only while the interval runs. */
    method TimerTick()
      modifies this`sessionTime
      ensures sessionTime == old(sessionTime) + (if timerRunning then 1 else 0)
    {
      if timerRunning {
        sessionTime := sessionTime + 1;
      }
    }

    /**
     * The completion callback the cycle of instance `owner` hands to `speak`. It counts and
     * re-arms only if that instance is still mounted and chanting; otherwise it does nothing.
     */
    method Completion(owner: nat, today: string, ghost rest: seq<nat>)
      requires Awaiting([owner] + rest)
      modifies this`tally, this`todaysJapa, this`dailyInFlight, this`isSaving, this`saveInFlight,
               this`timeoutArmed
      ensures Awaiting(rest)
      ensures old(mounted && owner == effect && isChanting) ==> IncrementApplied(today) && timeoutArmed
      ensures !old(mounted && owner == effect && isChanting) ==>
                TallyUnchanged() && timeoutArmed == old(timeoutArmed)
    {
      CountLiveConcat([owner], rest, Live());
      if mounted && owner == effect && isChanting {
        HandleIncrement(today);
        timeoutArmed := true;
      }
    }

    /** Runs the callbacks an audio event fired, in order. */
    method FireAll(owners: seq<nat>, today: string)
      requires Awaiting(owners)
      modifies this`tally, this`todaysJapa, this`dailyInFlight, this`isSaving, this`saveInFlight,
               this`timeoutArmed
      ensures Valid()
      ensures CountLive(owners, old(Live())) <= 1
      ensures CountLive(owners, old(Live())) == 1 ==> IncrementApplied(today) && timeoutArmed
      ensures CountLive(owners, old(Live())) == 0 ==> TallyUnchanged() && timeoutArmed == old(timeoutArmed)
    {
      ghost var delivered := 0;
      for i := 0 to |owners|
        invariant Awaiting(owners[i..])
        invariant delivered + CountLive(owners[i..], Live()) == CountLive(owners, Live()) <= 1
        invariant delivered == 0 ==> TallyUnchanged() && timeoutArmed == old(timeoutArmed)
        invariant delivered == 1 ==> IncrementApplied(today) && timeoutArmed
      {
        assert owners[i..][1..] == owners[i + 1..];
        ghost var live := if Live() == Some(owners[i]) then 1 else 0;
        assert live == 1 <==> mounted && owners[i] == effect && isChanting;
        Completion(owners[i], today, owners[i + 1..]);
        delivered := delivered + live;
      }
    }

    /** `speak` for the cycle of instance `owner`, which is live and running. */
    method Speak(owner: nat, today: string)
      requires Awaiting([owner]) && Running() && owner == effect
      modifies this`tally, this`todaysJapa, this`dailyInFlight, this`isSaving, this`saveInFlight,
               this`timeoutArmed, this`audio, this`nextCall, this`speechPending
      ensures Valid()
      ensures Spoke(owner, today, old(audio))
    {
      var path := ChooseSpeakPath(isChanting, mode, settings, true, isReactNative, hasSpeechSynthesis);
      match path
      case EndAtOnce =>
        assert [owner] + [] == [owner];
        Completion(owner, today, []);
      case PlayClip =>
        PlayFor(owner);
        assert TallyUnchanged();
      case NativeBridge =>
        AwaitSpeech(owner);
        assert TallyUnchanged();
      case Synthesize =>
        AwaitSpeech(owner);
        assert TallyUnchanged();
    }

    /** The clip path: plays the audio element with a fresh `'ended'` listener for `owner`. */
    method PlayFor(owner: nat)
      requires Awaiting([owner]) && Running() && owner == effect
      modifies this`audio, this`nextCall
      ensures Valid()
      ensures audio == Play(old(audio), Listener(old(nextCall), owner)) && nextCall == old(nextCall) + 1
    {
      assert CountLive([owner], Live()) == 1;
      assert Outstanding() == 0;
      PlayCoherent(audio, effect, nextCall);
      audio := Play(audio, Listener(nextCall, owner));
      nextCall := nextCall + 1;
    }

    /** The native-bridge and synthesis paths: `owner`'s completion waits on a timer or an utterance. */
    method AwaitSpeech(owner: nat)
      requires Awaiting([owner]) && Running() && owner == effect
      modifies this`speechPending
      ensures Valid()
      ensures speechPending == old(speechPending) + [owner]
    {
      assert CountLive([owner], Live()) == 1;
      assert Outstanding() == 0;
      CountLiveConcat(speechPending, [owner], Live());
      speechPending := speechPending + [owner];
    }

    /** `chantCycle` of instance `owner`: speaks only while that instance is live and auto-chanting. */
    method ChantCycle(owner: nat, today: string)
      requires Awaiting([owner])
      modifies this`tally, this`todaysJapa, this`dailyInFlight, this`isSaving, this`saveInFlight,
               this`timeoutArmed, this`audio, this`nextCall, this`speechPending
      ensures Valid()
      ensures old(Running() && owner == effect) ==> Spoke(owner, today, old(audio))
      ensures !old(Running() && owner == effect) ==>
                TallyUnchanged() && timeoutArmed == old(timeoutArmed) && audio == old(audio) &&
                nextCall == old(nextCall) && speechPending == old(speechPending)
    {
      assert CountLive([owner], Live()) == if Live() == Some(owner) then 1 else 0;
      if !isChanting || mode != Auto || !(mounted && owner == effect) {
        return;
      }
      Speak(owner, today);
    }

    /**
     * The cleanup of the current instance: its `isMounted` goes false, its timeout is cleared
     * and the audio is paused; the next instance is the live one, with no callback to come
     * before its first `chantCycle` call.
     */
    method EndInstance()
      requires Bookkept() && mounted && timerRunning == isChanting
      modifies this`timeoutArmed, this`audio, this`effect
      ensures Bookkept() && timerRunning == isChanting && Outstanding() == 0 && CountLive([effect], Live()) == 1
      ensures effect == old(effect) + 1 && !timeoutArmed && audio == Pause(old(audio))
    {
      effect := effect + 1;
      timeoutArmed := false;
      audio := Pause(audio);
      EndedStep();
    }

    /** The bookkeeping after the cleanup: nothing of the old instance is live, and no callback is due. */
    twostate lemma EndedStep()
      requires old(Bookkept()) && old(mounted) && mounted
      requires unchanged(this`mode, this`isChanting, this`timerRunning, this`nextCall, this`speechPending,
                         this`isSaving, this`saveInFlight, this`settledJapa, this`todaysJapa, this`dailyInFlight)
      requires effect == old(effect) + 1 && !timeoutArmed && audio == Pause(old(audio))
      ensures Bookkept() && Outstanding() == 0 && CountLive([effect], Live()) == 1
    {
      PauseCoherent(old(audio), old(Live()), old(effect), nextCall, Some(effect));
      NoneLiveOwners(speechPending, effect - 1);
      assert CountersKept() == old(CountersKept());
    }

    /**
     * The chant-cycle effect re-runs: the cleanup of the old instance (its `isMounted` goes
     * false, its timeout is cleared, speech is cancelled, the audio is paused and rewound), then
     * the setup of the new one, which starts a cycle when in auto mode and chanting.
     */
    method RestartCycle(today: string)
      requires Bookkept() && mounted && timerRunning == isChanting
      modifies this`tally, this`todaysJapa, this`dailyInFlight, this`isSaving, this`saveInFlight,
               this`timeoutArmed, this`audio, this`nextCall, this`speechPending, this`effect
      ensures Valid()
      ensures effect == old(effect) + 1
      ensures Running() ==> Spoke(effect, today, Pause(old(audio)))
      ensures !Running() ==>
                TallyUnchanged() && !timeoutArmed && audio == Pause(old(audio)) &&
                nextCall == old(nextCall) && speechPending == old(speechPending)
    {
      EndInstance();
      if mode == Auto && isChanting {
        ChantCycle(effect, today);
      }
    }

    /** `handleAutoToggle`: flips `isChanting`, in auto mode only; the timer and the cycle follow. */
    method AutoToggle(today: string)
      requires Valid()
      modifies this`isChanting, this`timerRunning,
               this`tally, this`todaysJapa, this`dailyInFlight, this`isSaving, this`saveInFlight,
               this`timeoutArmed, this`audio, this`nextCall, this`speechPending, this`effect
      ensures Valid()
      ensures !old(mounted && mode == Auto) ==> unchanged(this)
      ensures old(mounted && mode == Auto) ==>
                isChanting == !old(isChanting) && timerRunning == isChanting && effect == old(effect) + 1
      ensures old(mounted && mode == Auto) && isChanting ==> Spoke(effect, today, Pause(old(audio)))
      ensures old(mounted && mode == Auto) && !isChanting ==>
                TallyUnchanged() && !timeoutArmed && audio == Pause(old(audio)) &&
                nextCall == old(nextCall) && speechPending == old(speechPending)
    {
      if mounted && mode == Auto {
        isChanting := !isChanting;
        timerRunning := isChanting;
        RestartCycle(today);
      }
    }

    /** The `setMode` wrapper: stops chanting, then switches the mode. */
    method SetMode(newMode: Mode, today: string)
      requires Valid()
      modifies this`isChanting, this`mode, this`timerRunning,
               this`tally, this`todaysJapa, this`dailyInFlight, this`isSaving, this`saveInFlight,
               this`timeoutArmed, this`audio, this`nextCall, this`speechPending, this`effect
      ensures Valid()
      ensures !old(mounted) ==> unchanged(this)
      ensures old(mounted) ==> mode == newMode && !isChanting && !timerRunning
      ensures old(mounted) && (old(isChanting) || old(mode) != newMode) ==>
                effect == old(effect) + 1 && !timeoutArmed && audio == Pause(old(audio)) &&
                TallyUnchanged() && nextCall == old(nextCall) && speechPending == old(speechPending)
      ensures old(mounted) && !(old(isChanting) || old(mode) != newMode) ==> unchanged(this)
    {
      if mounted {
        var changed := isChanting || mode != newMode;
        isChanting := false;
        mode := newMode;
        timerRunning := false;
        StoppedStep();
        if changed {
          RestartCycle(today);
        }
      }
    }

    /** Stopping the chant and the interval keeps the bookkeeping, whatever the mode becomes. */
    twostate lemma StoppedStep()
      requires old(Bookkept()) && mounted && !isChanting && !timerRunning
      requires unchanged(this`mounted, this`timeoutArmed, this`audio, this`effect, this`nextCall, this`speechPending,
                         this`isSaving, this`saveInFlight, this`settledJapa, this`todaysJapa, this`dailyInFlight)
      ensures Bookkept()
    {
      assert CountersKept() == old(CountersKept());
      assert Live() == old(Live());
    }

    /**
     * `handleManualTap`, in manual mode: one increment. Its `speak` call sees this render's
     * `isChanting`, which is false in manual mode, so the utterance completes at once and the
     * `setIsChanting(true)` is undone in the same batch: no audio starts and `isChanting` stays false.
     */
    method ManualTap(today: string)
      requires Valid()
      modifies this`tally, this`todaysJapa, this`dailyInFlight, this`isSaving, this`saveInFlight
      ensures Valid()
      ensures old(mounted && mode == Manual) ==>
                IncrementApplied(today) &&
                ChooseSpeakPath(old(isChanting), mode, settings, true, isReactNative, hasSpeechSynthesis) == EndAtOnce
      ensures !old(mounted && mode == Manual) ==> TallyUnchanged()
    {
      if mounted && mode == Manual {
        HandleIncrement(today);
      }
    }

    /** The live instance's 50 ms re-arm timeout fires and runs the next cycle. */
    method TimeoutFired(today: string)
      requires Valid()
      modifies this`tally, this`todaysJapa, this`dailyInFlight, this`isSaving, this`saveInFlight,
               this`timeoutArmed, this`audio, this`nextCall, this`speechPending
      ensures Valid()
      ensures !old(timeoutArmed) ==> unchanged(this)
      ensures old(timeoutArmed) ==> Spoke(effect, today, old(audio))
    {
      if timeoutArmed {
        timeoutArmed := false;
        ChantCycle(effect, today);
      }
    }

    /** The audio element's `'ended'` event: each attached listener runs its instance's callback. */
    method AudioEnded(today: string)
      requires Valid()
      modifies this`tally, this`todaysJapa, this`dailyInFlight, this`isSaving, this`saveInFlight,
               this`timeoutArmed, this`audio
      ensures Valid()
      ensures audio == Ended(old(audio)).element
      ensures CountLive(Ended(old(audio)).owners, old(Live())) <= 1
      ensures CountLive(Ended(old(audio)).owners, old(Live())) == 1 ==> IncrementApplied(today) && timeoutArmed
      ensures CountLive(Ended(old(audio)).owners, old(Live())) == 0 ==>
                TallyUnchanged() && timeoutArmed == old(timeoutArmed)
    {
      var f := Ended(audio);
      EndedCoherent(audio, Live(), effect, nextCall);
      audio := f.element;
      FireAll(f.owners, today);
    }

    /**
     * The `i`-th unsettled `play()` promise settles; a rejection runs its callback (the `catch`).
     * This runs the corrected handler `Settle`, which also detaches the rejected call's `'ended'`
     * listener; the page's own `catch` leaves it attached (`SettleAsWritten`), and then a later
     * `'ended'` can run the live callback twice (`LeakedListenerFiresTwice`).
     */
    method PlaySettled(i: nat, resolved: bool, today: string)
      requires Valid() && i < |audio.plays|
      modifies this`tally, this`todaysJapa, this`dailyInFlight, this`isSaving, this`saveInFlight,
               this`timeoutArmed, this`audio
      ensures Valid()
      ensures audio == Settle(old(audio), i, resolved).element
      ensures CountLive(Settle(old(audio), i, resolved).owners, old(Live())) == 1 ==>
                IncrementApplied(today) && timeoutArmed
      ensures CountLive(Settle(old(audio), i, resolved).owners, old(Live())) == 0 ==>
                TallyUnchanged() && timeoutArmed == old(timeoutArmed)
    {
      var f := Settle(audio, i, resolved);
      SettleCoherent(audio, i, resolved, Live(), effect, nextCall);
      audio := f.element;
      FireAll(f.owners, today);
    }

    /** The `i`-th pending utterance `onend` (or native-bridge timer) runs its instance's callback. */
    method SpeechEnded(i: nat, today: string)
      requires Valid() && i < |speechPending|
      modifies this`tally, this`todaysJapa, this`dailyInFlight, this`isSaving, this`saveInFlight,
               this`timeoutArmed, this`speechPending
      ensures Valid()
      ensures speechPending == old(speechPending[..i] + speechPending[i + 1..])
      ensures old(Live()) == Some(old(speechPending[i])) ==> IncrementApplied(today) && timeoutArmed
      ensures old(Live()) != Some(old(speechPending[i])) ==> TallyUnchanged() && timeoutArmed == old(timeoutArmed)
    {
      var owner := speechPending[i];
      var rest := speechPending[..i] + speechPending[i + 1..];
      assert speechPending == speechPending[..i] + [owner] + speechPending[i + 1..];
      CountLiveConcat(speechPending[..i] + [owner], speechPending[i + 1..], Live());
      CountLiveConcat(speechPending[..i], [owner], Live());
      CountLiveConcat(speechPending[..i], speechPending[i + 1..], Live());
      assert forall o :: o in rest ==> o in speechPending;
      speechPending := rest;
      assert [owner] + [] == [owner];
      Completion(owner, today, []);
    }

    /** A settings setter from the settings panel; a change re-runs the chant-cycle effect. */
    method ApplySettings(s: AudioSettings, today: string)
      requires Valid()
      modifies this`settings,
               this`tally, this`todaysJapa, this`dailyInFlight, this`isSaving, this`saveInFlight,
               this`timeoutArmed, this`audio, this`nextCall, this`speechPending, this`effect
      ensures Valid()
      ensures settings == s
      ensures !(old(mounted) && s != old(settings)) ==>
                TallyUnchanged() && effect == old(effect) && audio == old(audio) &&
                timeoutArmed == old(timeoutArmed) && nextCall == old(nextCall) && speechPending == old(speechPending)
      ensures old(mounted) && s != old(settings) ==> effect == old(effect) + 1
      ensures old(mounted) && s != old(settings) && Running() ==> Spoke(effect, today, Pause(old(audio)))
      ensures old(mounted) && s != old(settings) && !Running() ==>
                TallyUnchanged() && !timeoutArmed && audio == Pause(old(audio)) &&
                nextCall == old(nextCall) && speechPending == old(speechPending)
    {
      var changed := s != settings;
      settings := s;
      if mounted && changed {
        RestartCycle(today);
      }
    }

    /** Navigation away: every effect's cleanup runs, and later callbacks find `isMounted` false. */
    method Unmount()
      requires Valid()
      modifies this`mounted, this`timerRunning, this`timeoutArmed, this`audio
      ensures Valid()
      ensures !mounted && !timerRunning && !timeoutArmed && audio == Pause(old(audio))
    {
      PauseCoherent(audio, Live(), effect, nextCall, None);
      NoneLiveOwners(speechPending, effect);
      mounted := false;
      timerRunning := false;
      timeoutArmed := false;
      audio := Pause(audio);
    }
  }

  /** Owners up to `epoch` are never the next instance, nor any instance of an unmounted page. */
  lemma {:induction false} NoneLiveOwners(s: seq<nat>, epoch: nat)
    requires forall o :: o in s ==> o <= epoch
    ensures CountLive(s, Some(epoch + 1)) == 0 && CountLive(s, None) == 0
  {
    if s != [] {
      assert s[0] in s;
      assert forall o :: o in s[1..] ==> o in s;
      NoneLiveOwners(s[1..], epoch);
    }
  }
}
