// The Spotify playback listener (spotify_listener.py).  One thread polls the
// Web API and keeps a local copy of the playback position; a second thread
// interpolates that position between polls; a third, started per track,
// downloads the album art.  Each thread is a method over what it observes:
// the API's answers and the clock's readings are inputs, and the callbacks
// it fires are returned as events.  Repeated failures back off
// exponentially up to thirty times the poll interval.

module SpotifyListener {
  import opened Wrappers

  // ------------------------------------------------------------------ data

  datatype Track = Track(id: string, name: string, artists: seq<string>, album: string,
                         images: seq<string>, durationMs: int)

  /** `current_playback()`: `item` is missing or empty when nothing is loaded. */
  datatype Playback = Playback(item: Option<Track>, progressMs: int, isPlaying: bool)

  /**
   * One poll: no API client, a failed call (the exception's text), or the
   * call's answer, `None` when there is no playback at all.
   */
  datatype Poll = NoClient | Failed(message: string) | Answer(playback: Option<Playback>)

  /** The `track_info` handed to `on_track_change`. */
  datatype TrackInfo = TrackInfo(id: string, name: string, artists: string, album: string,
                                 durationMs: int, progressMs: int, isPlaying: bool,
                                 albumArtUrl: Option<string>, albumArt: Option<string>)

  /** A callback firing; an image is named by the URL it was downloaded from. */
  datatype Event =
    | TrackChanged(info: TrackInfo)
    | AlbumArtLoaded(image: string)
    | ProgressUpdate(progressMs: real, durationMs: int, isPlaying: bool)
    | PlaybackState(playback: Option<Playback>)
    | ErrorReported(message: string)

  /** A download thread launched for the album art of a track. */
  datatype Download = Download(url: string, trackId: string)

  /** The callback names `set_callback` accepts. */
  const CALLBACK_NAMES: set<string> :=
    {"on_track_change", "on_album_art_loaded", "on_progress_update", "on_playback_state", "on_error"}

  /** `max_silent_errors` */
  const MAX_SILENT_ERRORS: nat := 5

  /** The longest back-off, as a multiple of the poll interval. */
  const MAX_BACKOFF: real := 30.0

  /** The listener's fields apart from its threads. */
  datatype Listener = Listener(
    lastTrackId: Option<string>,
    lastPlayback: Option<Playback>,
    lastAlbumArt: Option<string>,
    localProgressMs: int,
    localDurationMs: int,
    localIsPlaying: bool,
    lastSyncTime: real,
    consecutiveErrors: nat,
    errorBackoff: real,
    callbacks: map<string, bool>)

  /** `__init__`: nothing seen, no errors, back-off 1, every callback unset. */
  const INITIAL_LISTENER: Listener := Listener(None, None, None, 0, 0, false, 0.0, 0, 1.0,
    map["on_track_change" := false, "on_album_art_loaded" := false, "on_progress_update" := false,
        "on_playback_state" := false, "on_error" := false])

  /** Whether a callback is set to something truthy. */
  predicate Registered(s: Listener, name: string) {
    name in s.callbacks && s.callbacks[name]
  }

  /** `set_callback`: an unknown name is rejected with a warning and changes nothing. */
  function SetCallback(s: Listener, name: string, present: bool): (r: Listener)
    ensures name in s.callbacks ==> r == s.(callbacks := s.callbacks[name := present])
    ensures name !in s.callbacks ==> r == s
  {
    if name in s.callbacks then s.(callbacks := s.callbacks[name := present]) else s
  }

  /** The callback table always holds exactly the five names. */
  lemma CallbackNamesFixed(s: Listener, name: string, present: bool)
    requires s.callbacks.Keys == CALLBACK_NAMES
    ensures SetCallback(s, name, present).callbacks.Keys == CALLBACK_NAMES
    ensures Registered(SetCallback(s, name, present), name) <==> name in CALLBACK_NAMES && present
  {
  }

  // ------------------------------------------------------------- one poll

  /** `', '.join(names)` */
  function JoinNames(names: seq<string>): (r: string)
    ensures |names| == 0 ==> r == ""
    ensures |names| == 1 ==> r == names[0]
    decreases |names|
  {
    if |names| == 0 then ""
    else if |names| == 1 then names[0]
    else JoinNames(names[..|names| - 1]) + ", " + names[|names| - 1]
  }

  /** The album image `_handle_track_change` downloads: the second (medium) one when there are several. */
  function ImageUrl(images: seq<string>): (r: Option<string>)
    ensures |images| == 0 <==> r.None?
    ensures |images| == 1 ==> r == Some(images[0])
    ensures |images| > 1 ==> r == Some(images[1])
  {
    if |images| == 0 then None else if |images| > 1 then Some(images[1]) else Some(images[0])
  }

  function TrackInfoOf(t: Track, p: Playback): TrackInfo {
    TrackInfo(t.id, t.name, JoinNames(t.artists), t.album, t.durationMs, p.progressMs, p.isPlaying, None, None)
  }

  /**
   * `_handle_track_change`: the information without the image first, then a
   * download of the chosen image for this track's id.
   */
  function TrackChange(s: Listener, t: Track, p: Playback): (r: (seq<Event>, Option<Download>))
    ensures r.0 == (if Registered(s, "on_track_change") then [TrackChanged(TrackInfoOf(t, p))] else [])
    ensures r.1.None? <==> |t.images| == 0
    ensures r.1.Some? ==> r.1.value == Download(ImageUrl(t.images).value, t.id)
  {
    var events := if Registered(s, "on_track_change") then [TrackChanged(TrackInfoOf(t, p))] else [];
    match ImageUrl(t.images)
      case None => (events, None)
      case Some(url) => (events, Some(Download(url, t.id)))
  }

  /** What `_update_playback_state` does: the new fields, the callbacks fired, a download launched, and whether it raised. */
  datatype Outcome = Outcome(state: Listener, events: seq<Event>, download: Option<Download>, raised: bool)

  /** `_update_playback_state` */
  function Update(s: Listener, poll: Poll, now: real): Outcome {
    match poll
      case NoClient => Outcome(s, [], None, false)
      case Failed(message) =>
        Outcome(s, if Registered(s, "on_error") && s.consecutiveErrors > MAX_SILENT_ERRORS then [ErrorReported(message)] else [],
                None, true)
      case Answer(answer) =>
        if answer.None? || answer.value.item.None? then
          var stopped := s.(localIsPlaying := false);
          if s.lastPlayback.Some? then
            Outcome(stopped.(lastPlayback := None, lastTrackId := None),
                    if Registered(s, "on_playback_state") then [PlaybackState(None)] else [], None, false)
          else Outcome(stopped, [], None, false)
        else
          var p := answer.value;
          var t := p.item.value;
          var synced := s.(localProgressMs := p.progressMs, localDurationMs := t.durationMs,
                           localIsPlaying := p.isPlaying, lastSyncTime := now);
          var changed := s.lastTrackId != Some(t.id);
          var handled := if changed then TrackChange(s, t, p) else ([], None);
          var state := if Registered(s, "on_playback_state") then [PlaybackState(Some(p))] else [];
          Outcome(synced.(lastTrackId := Some(t.id), lastPlayback := Some(p)), handled.0 + state, handled.1, false)
  }

  /** Something is playing in this answer. */
  predicate HasItem(poll: Poll) {
    poll.Answer? && poll.playback.Some? && poll.playback.value.item.Some?
  }

  /**
   * With no playback or no item the local copy stops; the last playback and
   * track are cleared, and a `None` state reported, only when something had
   * been seen before.
   */
  lemma NoPlaybackClears(s: Listener, poll: Poll, now: real)
    requires poll.Answer? && !HasItem(poll)
    ensures var o := Update(s, poll, now);
      !o.state.localIsPlaying && !o.raised && o.download.None? &&
      o.state.lastPlayback.None? &&
      (s.lastPlayback.Some? ==> (o.state.lastTrackId.None? &&
        o.events == (if Registered(s, "on_playback_state") then [PlaybackState(None)] else []))) &&
      (s.lastPlayback.None? ==> o.state == s.(localIsPlaying := false) && o.events == [])
  {
  }

  /**
   * With an item the local copy is synchronised; the track-change handler
   * runs exactly when the item's id differs from the last one, which then
   * becomes the last track; the state callback comes last.
   */
  lemma AnswerSyncs(s: Listener, poll: Poll, now: real)
    requires HasItem(poll)
    ensures var p := poll.playback.value;
      var t := p.item.value;
      var o := Update(s, poll, now);
      !o.raised &&
      o.state.localProgressMs == p.progressMs && o.state.localDurationMs == t.durationMs &&
      o.state.localIsPlaying == p.isPlaying && o.state.lastSyncTime == now &&
      o.state.lastTrackId == Some(t.id) && o.state.lastPlayback == Some(p) &&
      (s.lastTrackId != Some(t.id) ==> ((o.events, o.download) ==
        (TrackChange(s, t, p).0 + (if Registered(s, "on_playback_state") then [PlaybackState(Some(p))] else []), TrackChange(s, t, p).1))) &&
      (s.lastTrackId == Some(t.id) ==> (o.download.None? &&
        o.events == (if Registered(s, "on_playback_state") then [PlaybackState(Some(p))] else [])))
  {
  }

  /** The same answer twice: the second changes nothing and announces no new track. */
  lemma SameAnswerTwice(s: Listener, poll: Poll, now: real)
    requires HasItem(poll)
    ensures var first := Update(s, poll, now).state;
      var second := Update(first, poll, now);
      second.state == first && second.download.None? &&
      forall e | e in second.events :: !e.TrackChanged?
  {
  }

  /** The last playback and the last track agree: both are unset, or the playback's item is the last track. */
  predicate Consistent(s: Listener) {
    (s.lastPlayback.None? <==> s.lastTrackId.None?) &&
    (s.lastPlayback.Some? ==> s.lastPlayback.value.item.Some? && s.lastTrackId == Some(s.lastPlayback.value.item.value.id))
  }

  // ------------------------------------------------------------- the loop

  function Min(a: real, b: real): real {
    if a < b then a else b
  }

  /** One pass of `_listen_loop`: the new fields, the callbacks, a download, and how long it sleeps. */
  function Listen(s: Listener, poll: Poll, now: real, interval: real): (r: (Listener, seq<Event>, Option<Download>, real))
    ensures !Update(s, poll, now).raised ==> r.0.consecutiveErrors == 0 && r.0.errorBackoff == 1.0 && r.3 == interval
    ensures Update(s, poll, now).raised ==>
      r.0 == s.(consecutiveErrors := s.consecutiveErrors + 1, errorBackoff := Min(s.errorBackoff * 1.5, MAX_BACKOFF)) &&
      r.3 == interval * r.0.errorBackoff && r.2.None?
    ensures r.1 == Update(s, poll, now).events
  {
    var o := Update(s, poll, now);
    if !o.raised then (o.state.(consecutiveErrors := 0, errorBackoff := 1.0), o.events, o.download, interval)
    else
      var backoff := Min(s.errorBackoff * 1.5, MAX_BACKOFF);
      (o.state.(consecutiveErrors := s.consecutiveErrors + 1, errorBackoff := backoff), o.events, None, interval * backoff)
  }

  /** `1.5 ** k` */
  function Pow15(k: nat): (p: real)
    ensures p >= 1.0
  {
    if k == 0 then 1.0 else Pow15(k - 1) * 1.5
  }

  /** The back-off a run of errors leads to: `min(1.5 ** errors, 30)`. */
  predicate BackoffFollowsErrors(s: Listener) {
    s.errorBackoff == Min(Pow15(s.consecutiveErrors), MAX_BACKOFF)
  }

  /** The invariants of a listener: a consistent last track and a back-off set by the error count. */
  predicate Valid(s: Listener) {
    Consistent(s) && BackoffFollowsErrors(s) && s.callbacks.Keys == CALLBACK_NAMES
  }

  lemma InitialValid()
    ensures Valid(INITIAL_LISTENER)
  {
    assert INITIAL_LISTENER.callbacks.Keys == CALLBACK_NAMES;
  }

  /**
   * Every pass keeps the invariants; in particular the back-off stays in
   * [1, 30] and the sleep between polls at most thirty intervals.
   */
  lemma ListenKeepsValid(s: Listener, poll: Poll, now: real, interval: real)
    requires Valid(s)
    ensures Valid(Listen(s, poll, now, interval).0)
    ensures 1.0 <= Listen(s, poll, now, interval).0.errorBackoff <= MAX_BACKOFF
  {
    var o := Update(s, poll, now);
    var k := s.consecutiveErrors;
    if o.raised {
      assert Pow15(k + 1) == Pow15(k) * 1.5;
    }
  }

  /** The events, downloads and state of `_listen_loop` over its polls, each with the clock's reading. */
  function Run(s: Listener, polls: seq<(Poll, real)>, interval: real): (Listener, seq<Event>, seq<Download>)
    decreases |polls|
  {
    if |polls| == 0 then (s, [], [])
    else
      var (mid, events, downloads) := Run(s, polls[..|polls| - 1], interval);
      var (next, more, download, _) := Listen(mid, polls[|polls| - 1].0, polls[|polls| - 1].1, interval);
      (next, events + more, downloads + (if download.Some? then [download.value] else []))
  }

  /** How many polls at the end failed in a row. */
  function TrailingFailures(polls: seq<(Poll, real)>): (n: nat)
    ensures n <= |polls|
    decreases |polls|
  {
    if |polls| == 0 || !polls[|polls| - 1].0.Failed? then 0 else TrailingFailures(polls[..|polls| - 1]) + 1
  }

  /**
   * The error count is the number of failures since the last poll that did
   * not fail (added to the starting count when every poll failed), and the
   * run keeps the invariants.
   */
  lemma {:induction false} RunCountsErrors(s: Listener, polls: seq<(Poll, real)>, interval: real)
    requires Valid(s)
    ensures var r := Run(s, polls, interval).0;
      Valid(r) &&
      r.consecutiveErrors == (if TrailingFailures(polls) == |polls| then s.consecutiveErrors + |polls| else TrailingFailures(polls))
    decreases |polls|
  {
    if |polls| > 0 {
      var init := polls[..|polls| - 1];
      RunCountsErrors(s, init, interval);
      var mid := Run(s, init, interval).0;
      ListenKeepsValid(mid, polls[|polls| - 1].0, polls[|polls| - 1].1, interval);
    }
  }

  /** How many of `n` further failures report, after `e` failures already: those that find more than five before them. */
  function Reporting(e: nat, n: nat): nat {
    if e + n <= MAX_SILENT_ERRORS + 1 then 0
    else if e > MAX_SILENT_ERRORS then n
    else e + n - (MAX_SILENT_ERRORS + 1)
  }

  /**
   * A run of failures fires `on_error` only once more than five came before:
   * from no errors, the first six are silent and every later one reports.
   */
  lemma {:induction false} FailuresReport(s: Listener, polls: seq<(Poll, real)>, interval: real)
    requires forall i | 0 <= i < |polls| :: polls[i].0.Failed?
    ensures var (r, events, downloads) := Run(s, polls, interval);
      r.callbacks == s.callbacks && r.consecutiveErrors == s.consecutiveErrors + |polls| && downloads == [] &&
      (forall i | 0 <= i < |events| :: events[i].ErrorReported?) &&
      |events| == (if Registered(s, "on_error") then Reporting(s.consecutiveErrors, |polls|) else 0)
    decreases |polls|
  {
    if |polls| > 0 {
      var init := polls[..|polls| - 1];
      FailuresReport(s, init, interval);
    }
  }

  // --------------------------------------------------- art and interpolation

  /**
   * `_download_album_art_async` for a download that yields `image` (`None`
   * when it fails).  `_download_album_art` caches the image before the
   * check; the callback fires only while the track is still the current one.
   */
  function DeliverArt(s: Listener, d: Download, image: Option<string>): (r: (Listener, seq<Event>))
    ensures r.1 != [] <==> image.Some? && s.lastTrackId == Some(d.trackId) && Registered(s, "on_album_art_loaded")
    ensures r.1 != [] ==> r.1 == [AlbumArtLoaded(image.value)]
    ensures r.0 == (if image.Some? then s.(lastAlbumArt := image) else s)
  {
    var cached := if image.Some? then s.(lastAlbumArt := image) else s;
    (cached, if image.Some? && s.lastTrackId == Some(d.trackId) && Registered(s, "on_album_art_loaded")
             then [AlbumArtLoaded(image.value)] else [])
  }

  /** Art for a track that a later answer has replaced is never delivered. */
  lemma StaleArtDropped(s: Listener, d: Download, poll: Poll, now: real, image: Option<string>)
    requires HasItem(poll) && poll.playback.value.item.value.id != d.trackId
    ensures DeliverArt(Update(s, poll, now).state, d, image).1 == []
  {
  }

  /** A download launched by a poll delivers its art if nothing else has been polled meanwhile. */
  lemma FreshArtDelivered(s: Listener, poll: Poll, now: real, image: string)
    requires Update(s, poll, now).download.Some? && Registered(s, "on_album_art_loaded")
    ensures var o := Update(s, poll, now);
      DeliverArt(o.state, o.download.value, Some(image)).1 == [AlbumArtLoaded(image)]
  {
  }

  /**
   * One pass of `_interpolation_loop` at time `now`: while playing a track of
   * known length it reports the synchronised position plus the time since,
   * never beyond the track's end.
   */
  function Interpolate(s: Listener, now: real): (r: Option<Event>)
    ensures r.Some? <==> s.localIsPlaying && s.localDurationMs > 0 && Registered(s, "on_progress_update")
    ensures r.Some? ==> r.value.ProgressUpdate? && r.value.durationMs == s.localDurationMs && r.value.isPlaying
    ensures r.Some? ==> r.value.progressMs <= s.localDurationMs as real
    ensures r.Some? ==> r.value.progressMs <= s.localProgressMs as real + (now - s.lastSyncTime) * 1000.0
    ensures r.Some? && s.localProgressMs as real + (now - s.lastSyncTime) * 1000.0 <= s.localDurationMs as real ==>
      r.value.progressMs == s.localProgressMs as real + (now - s.lastSyncTime) * 1000.0
  {
    if s.localIsPlaying && s.localDurationMs > 0 && Registered(s, "on_progress_update") then
      var elapsed := (now - s.lastSyncTime) * 1000.0;
      Some(ProgressUpdate(Min(s.localProgressMs as real + elapsed, s.localDurationMs as real), s.localDurationMs, s.localIsPlaying))
    else None
  }

  /** Between two polls the reported position never goes backwards. */
  lemma InterpolationMonotone(s: Listener, t1: real, t2: real)
    requires t1 <= t2 && Interpolate(s, t1).Some?
    ensures Interpolate(s, t1).value.progressMs <= Interpolate(s, t2).value.progressMs
  {
  }

  /** `get_current_track`: the last playback's track with the cached image. */
  function CurrentTrack(s: Listener): (r: Option<TrackInfo>)
    ensures r.None? <==> s.lastPlayback.None? || s.lastPlayback.value.item.None?
    ensures r.Some? ==> r.value.id == s.lastPlayback.value.item.value.id && r.value.albumArt == s.lastAlbumArt
  {
    match s.lastPlayback
      case None => None
      case Some(p) =>
        match p.item
          case None => None
          case Some(t) => Some(TrackInfoOf(t, p).(albumArt := s.lastAlbumArt))
  }

  /** On a consistent listener there is a current track exactly when a last track is known, and it is that track. */
  lemma CurrentTrackIsLast(s: Listener)
    requires Consistent(s)
    ensures CurrentTrack(s).Some? <==> s.lastTrackId.Some?
    ensures CurrentTrack(s).Some? ==> Some(CurrentTrack(s).value.id) == s.lastTrackId
  {
  }

  // ------------------------------------------------------------ the object

  class Spotify {
    const updateInterval: real
    var running: bool
    var lastTrackId: Option<string>
    var lastPlayback: Option<Playback>
    var lastAlbumArt: Option<string>
    var localProgressMs: int
    var localDurationMs: int
    var localIsPlaying: bool
    var lastSyncTime: real
    var consecutiveErrors: nat
    var errorBackoff: real
    var callbacks: map<string, bool>

    function State(): Listener
      reads this
    {
      Listener(lastTrackId, lastPlayback, lastAlbumArt, localProgressMs, localDurationMs, localIsPlaying,
               lastSyncTime, consecutiveErrors, errorBackoff, callbacks)
    }

    method SetState(s: Listener)
      modifies this
      ensures State() == s && running == old(running)
    {
      lastTrackId, lastPlayback, lastAlbumArt := s.lastTrackId, s.lastPlayback, s.lastAlbumArt;
      localProgressMs, localDurationMs, localIsPlaying := s.localProgressMs, s.localDurationMs, s.localIsPlaying;
      lastSyncTime, consecutiveErrors, errorBackoff, callbacks := s.lastSyncTime, s.consecutiveErrors, s.errorBackoff, s.callbacks;
    }

    constructor(updateInterval: real)
      ensures this.updateInterval == updateInterval && !running && State() == INITIAL_LISTENER
    {
      this.updateInterval := updateInterval;
      running := false;
      lastTrackId, lastPlayback, lastAlbumArt := None, None, None;
      localProgressMs, localDurationMs, localIsPlaying, lastSyncTime := 0, 0, false, 0.0;
      consecutiveErrors, errorBackoff := 0, 1.0;
      callbacks := INITIAL_LISTENER.callbacks;
    }

    method SetCallbackOf(name: string, present: bool)
      modifies this
      ensures State() == SetCallback(old(State()), name, present) && running == old(running)
    {
      if name in callbacks {
        callbacks := callbacks[name := present];
      }
    }

    /** `start`: a second start while running launches nothing. */
    method Start() returns (launched: bool)
      modifies this
      ensures launched <==> !old(running)
      ensures running && State() == old(State())
    {
      if running {
        return false;
      }
      running := true;
      launched := true;
    }

    method Stop()
      modifies this
      ensures !running && State() == old(State())
    {
      running := false;
    }

    /** `_update_playback_state` */
    method UpdatePlaybackState(poll: Poll, now: real) returns (events: seq<Event>, download: Option<Download>, raised: bool)
      modifies this
      ensures var o := Update(old(State()), poll, now);
        State() == o.state && events == o.events && download == o.download && raised == o.raised
      ensures running == old(running)
    {
      var o := Update(State(), poll, now);
      SetState(o.state);
      events, download, raised := o.events, o.download, o.raised;
    }

    /**
     * `_listen_loop` over the polls it makes while running; `stop`, which
     * another thread calls, is the end of the polls.
     */
    method ListenLoop(polls: seq<(Poll, real)>) returns (events: seq<Event>, downloads: seq<Download>, sleeps: seq<real>)
      modifies this
      ensures old(running) ==> (State(), events, downloads) == Run(old(State()), polls, updateInterval) && |sleeps| == |polls|
      ensures !old(running) ==> State() == old(State()) && events == [] && downloads == [] && sleeps == []
      ensures running == old(running)
    {
      events, downloads, sleeps := [], [], [];
      ghost var start := State();
      var i := 0;
      while running && i < |polls|
        invariant 0 <= i <= |polls|
        invariant running == old(running)
        invariant !running ==> i == 0
        invariant (State(), events, downloads) == Run(start, polls[..i], updateInterval) && |sleeps| == i
      {
        assert polls[..i + 1][..i] == polls[..i];
        var (poll, now) := polls[i];
        ghost var step := Listen(State(), poll, now, updateInterval);
        var more, download, sleep := ListenOnce(poll, now);
        events := events + more;
        downloads := downloads + (if download.Some? then [download.value] else []);
        sleeps := sleeps + [sleep];
        assert Run(start, polls[..i + 1], updateInterval) ==
          (step.0, Run(start, polls[..i], updateInterval).1 + step.1,
           Run(start, polls[..i], updateInterval).2 + (if step.2.Some? then [step.2.value] else []));
        i := i + 1;
      }
      if running {
        assert polls[..|polls|] == polls;
      }
    }

    /** One pass of `_listen_loop`: the poll, then the error bookkeeping and the sleep it chooses. */
    method ListenOnce(poll: Poll, now: real) returns (events: seq<Event>, download: Option<Download>, sleep: real)
      modifies this
      ensures (State(), events, download, sleep) == Listen(old(State()), poll, now, updateInterval)
      ensures running == old(running)
    {
      ghost var before := State();
      var raised;
      events, download, raised := UpdatePlaybackState(poll, now);
      assert raised ==> State() == before by {
        if raised { assert poll.Failed?; }
      }
      if !raised {
        consecutiveErrors := 0;
        errorBackoff := 1.0;
        sleep := updateInterval;
      } else {
        consecutiveErrors := consecutiveErrors + 1;
        errorBackoff := if errorBackoff * 1.5 < MAX_BACKOFF then errorBackoff * 1.5 else MAX_BACKOFF;
        sleep := updateInterval * errorBackoff;
        download := None;
      }
      ghost var r := Listen(before, poll, now, updateInterval);
      assert State() == r.0;
      assert events == r.1;
      assert download == r.2;
      assert sleep == r.3;
    }

    /** `_download_album_art_async` */
    method DownloadAlbumArtAsync(d: Download, image: Option<string>) returns (events: seq<Event>)
      modifies this
      ensures (State(), events) == DeliverArt(old(State()), d, image) && running == old(running)
    {
      if image.Some? {
        lastAlbumArt := image;
      }
      events := [];
      if image.Some? && lastTrackId == Some(d.trackId) && "on_album_art_loaded" in callbacks && callbacks["on_album_art_loaded"] {
        events := [AlbumArtLoaded(image.value)];
      }
    }

    /** `_interpolation_loop` at the clock readings of its passes; it changes no field. */
    method InterpolationLoop(times: seq<real>) returns (events: seq<Event>)
      ensures forall e | e in events :: e.ProgressUpdate? && e.progressMs <= localDurationMs as real
      ensures |events| <= |times|
      ensures running ==> |events| == (if Interpolate(State(), 0.0).Some? then |times| else 0)
      ensures running ==> forall k | 0 <= k < |events| :: Some(events[k]) == Interpolate(State(), times[k])
      ensures !running ==> events == []
    {
      events := [];
      if !running {
        return;
      }
      for i := 0 to |times|
        invariant |events| == (if Interpolate(State(), 0.0).Some? then i else 0)
        invariant forall k | 0 <= k < |events| :: Some(events[k]) == Interpolate(State(), times[k])
        invariant forall e | e in events :: e.ProgressUpdate? && e.progressMs <= localDurationMs as real
      {
        var update := Interpolate(State(), times[i]);
        if update.Some? {
          events := events + [update.value];
        }
      }
    }

    /** `get_current_track` */
    method GetCurrentTrack() returns (r: Option<TrackInfo>)
      ensures r == CurrentTrack(State())
    {
      r := None;
      if lastPlayback.Some? && lastPlayback.value.item.Some? {
        var t := lastPlayback.value.item.value;
        r := Some(TrackInfo(t.id, t.name, JoinNames(t.artists), t.album, t.durationMs,
                            lastPlayback.value.progressMs, lastPlayback.value.isPlaying, None, lastAlbumArt));
      }
    }
  }
}
