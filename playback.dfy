/**
 * The playback side of mpdscribble (src/Main.cxx): the rule that decides
 * whether a song was played long enough to be scrobbled, the detection of a
 * song that MPD plays again from the start, and what each MPD notification
 * does to the daemon's playback timer and to the reports it hands to the
 * scrobblers.
 *
 * The GLib timer is modelled by whole elapsed seconds and a running flag; the
 * scrobbler set is modelled by the sequence of reports it has received.
 */
module Playback {
  import opened Wrappers

  /** An MPD tag; libmpdclient gives NULL for a tag the song does not carry. */
  type Tag = Option<string>

  /** The parts of an `mpd_song` the daemon reads; `duration` is in seconds, 0 when unknown. */
  datatype Song = Song(uri: string, artist: Tag, title: Tag, album: Tag, track: Tag,
                       mbid: Tag, duration: nat)

  /** A call into the scrobbler set: `NowPlaying(...)` or `SongChange(...)`. */
  datatype Report =
    | NowPlaying(artist: Tag, title: Tag, album: Tag, track: Tag, mbid: Tag, length: nat)
    | SongChange(uri: string, artist: Tag, title: Tag, album: Tag, track: Tag, mbid: Tag,
                 length: nat, love: bool)

  function Min(a: int, b: int): int {
    if a <= b then a else b
  }

  /**
   * The scrobble rule: more than 240 seconds, or (for a song of at least 30
   * seconds) more than half of its length, whichever threshold is lower.
   * `length / 2` is only taken when `length >= 30`, so C's division and
   * Dafny's agree.
   */
  function PlayedLongEnough(elapsed: int, length: int): (r: bool)
    ensures elapsed > 240 ==> r
    ensures length < 30 ==> (r <==> elapsed > 240)
    ensures length >= 30 ==> (r <==> elapsed > Min(240, length / 2))
  {
    elapsed > 240 || (length >= 30 && elapsed > length / 2)
  }

  /** Playing longer never takes eligibility away. */
  lemma PlayedLongEnoughMonotone(elapsed: int, later: int, length: int)
    requires PlayedLongEnough(elapsed, length) && elapsed <= later
    ensures PlayedLongEnough(later, length)
  {
  }

  /**
   * MPD reports the same song again, but its elapsed time went back: the song
   * is taken to be repeating when MPD's elapsed is below one minute and the
   * amount by which it went back would itself count as a full play.
   */
  function SongRepeated(song: Song, elapsed: int, prevElapsed: int): (r: bool)
    ensures elapsed >= 60 ==> !r
    ensures prevElapsed <= elapsed ==> !r
    ensures r ==> PlayedLongEnough(prevElapsed - elapsed, song.duration)
    ensures (elapsed < 60 && prevElapsed > elapsed
             && PlayedLongEnough(prevElapsed - elapsed, song.duration)) ==> r
    ensures r ==> prevElapsed - elapsed > 15
    ensures r && song.duration < 30 ==> prevElapsed - elapsed > 240
  {
    elapsed < 60 && prevElapsed > elapsed
    && PlayedLongEnough(prevElapsed - elapsed, song.duration)
  }

  /** The length sent with a scrobble: the song's duration, or the timer when it is unknown. */
  function ScrobbleLength(song: Song, elapsed: nat): nat {
    if song.duration > 0 then song.duration else elapsed
  }

  /** The `NowPlaying` call made for a song. */
  function Announcement(song: Song): Report {
    NowPlaying(song.artist, song.title, song.album, song.track, song.mbid, song.duration)
  }

  /** The `SongChange` call made for a song that ends after `elapsed` timer seconds. */
  function Scrobble(song: Song, elapsed: nat, love: bool): Report {
    SongChange(song.uri, song.artist, song.title, song.album, song.track, song.mbid,
               ScrobbleLength(song, elapsed), love)
  }

  /** What the daemon's `Instance` holds for playback: the timer and the reports sent so far. */
  datatype InstanceState = InstanceState(elapsed: nat, running: bool, reports: seq<Report>)

  /** `OnMpdSongChanged` (and `OnMpdStarted`): restart the timer and announce the song. */
  function AfterSongChanged(s: InstanceState, song: Song): (r: InstanceState)
    ensures r.elapsed == 0 && r.running
    ensures r.reports == s.reports + [Announcement(song)]
  {
    InstanceState(0, true, s.reports + [Announcement(song)])
  }

  /** `OnMpdPaused`: stop the timer, keeping what it has measured. */
  function AfterPaused(s: InstanceState): (r: InstanceState)
    ensures !r.running && r.elapsed == s.elapsed && r.reports == s.reports
  {
    s.(running := false)
  }

  /** `OnMpdResumed`: let the timer continue from where it stopped. */
  function AfterResumed(s: InstanceState): (r: InstanceState)
    ensures r.running && r.elapsed == s.elapsed && r.reports == s.reports
  {
    s.(running := true)
  }

  /** Wall-clock time passing: only a running timer counts it. */
  function AfterTick(s: InstanceState, seconds: nat): (r: InstanceState)
    ensures r.running == s.running && r.reports == s.reports
    ensures r.elapsed == if s.running then s.elapsed + seconds else s.elapsed
  {
    if s.running then s.(elapsed := s.elapsed + seconds) else s
  }

  /**
   * `OnMpdEnded`: scrobble the song if the timer says it was played long
   * enough, and otherwise send nothing. The timer is not touched.
   */
  function AfterEnded(s: InstanceState, song: Song, love: bool): (r: InstanceState)
    ensures r.elapsed == s.elapsed && r.running == s.running
    ensures !PlayedLongEnough(s.elapsed, song.duration) ==> r.reports == s.reports
    ensures PlayedLongEnough(s.elapsed, song.duration) ==>
              |r.reports| == |s.reports| + 1 && r.reports[..|s.reports|] == s.reports
    ensures |r.reports| > |s.reports| ==>
              var e := r.reports[|s.reports|];
              && e.SongChange? && e.uri == song.uri && e.love == love && e.length > 0
              && e.artist == song.artist && e.title == song.title && e.album == song.album
              && e.track == song.track && e.mbid == song.mbid
              && e.length == (if song.duration > 0 then song.duration else s.elapsed)
  {
    if PlayedLongEnough(s.elapsed, song.duration)
    then s.(reports := s.reports + [Scrobble(song, s.elapsed, love)])
    else s
  }

  /**
   * `OnMpdPlaying`: when the song is repeating, end it (not loved) and start it
   * again; otherwise nothing happens. Because the rewind gap counted as a full
   * play, a repeat always scrobbles the previous play when MPD's elapsed is
   * not negative.
   */
  function AfterPlaying(s: InstanceState, song: Song, elapsed: int): (r: InstanceState)
    ensures !SongRepeated(song, elapsed, s.elapsed) ==> r == s
    ensures SongRepeated(song, elapsed, s.elapsed) ==>
              && r.elapsed == 0 && r.running
              && r.reports == AfterEnded(s, song, false).reports + [Announcement(song)]
    ensures SongRepeated(song, elapsed, s.elapsed) && elapsed >= 0 ==>
              r.reports == s.reports + [Scrobble(song, s.elapsed, false), Announcement(song)]
  {
    if SongRepeated(song, elapsed, s.elapsed)
    then AfterSongChanged(AfterEnded(s, song, false), song)
    else s
  }

  /** The notifications the MPD observer delivers, plus the clock advancing between them. */
  datatype Notification =
    | SongChanged(song: Song)
    | Started(song: Song)
    | Paused
    | Resumed
    | Playing(song: Song, elapsed: int)
    | Ended(song: Song, love: bool)
    | Tick(seconds: nat)

  function Step(s: InstanceState, n: Notification): InstanceState {
    match n
    case SongChanged(song) => AfterSongChanged(s, song)
    case Started(song) => AfterSongChanged(s, song)
    case Paused => AfterPaused(s)
    case Resumed => AfterResumed(s)
    case Playing(song, elapsed) => AfterPlaying(s, song, elapsed)
    case Ended(song, love) => AfterEnded(s, song, love)
    case Tick(seconds) => AfterTick(s, seconds)
  }

  /** The state after delivering `ns` in order. */
  function Replay(s: InstanceState, ns: seq<Notification>): InstanceState
    decreases |ns|
  {
    if ns == [] then s else Replay(Step(s, ns[0]), ns[1..])
  }

  /**
   * Notifications that never restart the timer, delivered from `s`: no song
   * change or start, and no `Playing` update that the repeat test takes for
   * a repeat.
   */
  predicate Uninterrupted(s: InstanceState, ns: seq<Notification>)
    decreases |ns|
  {
    || ns == []
    || (&& !ns[0].SongChanged? && !ns[0].Started?
        && (ns[0].Playing? ==> !SongRepeated(ns[0].song, ns[0].elapsed, s.elapsed))
        && Uninterrupted(Step(s, ns[0]), ns[1..]))
  }

  /**
   * Reference count of the clock seconds during which the timer runs: from a
   * start or a resume to the next pause. An end does not stop the timer, so
   * seconds after an end still count.
   */
  function PlayedSeconds(running: bool, ns: seq<Notification>): nat
    decreases |ns|
  {
    if ns == [] then 0
    else match ns[0]
      case Tick(seconds) => (if running then seconds else 0) + PlayedSeconds(running, ns[1..])
      case Paused => PlayedSeconds(false, ns[1..])
      case Resumed => PlayedSeconds(true, ns[1..])
      case _ => PlayedSeconds(running, ns[1..])
  }

  /** MPD's updates once a song is a minute in can never restart the timer. */
  lemma {:induction false} LateUpdatesUninterrupted(s: InstanceState, ns: seq<Notification>)
    requires forall i :: 0 <= i < |ns| ==>
               !ns[i].SongChanged? && !ns[i].Started? && (ns[i].Playing? ==> ns[i].elapsed >= 60)
    ensures Uninterrupted(s, ns)
    decreases |ns|
  {
    if ns != [] {
      forall i | 0 <= i < |ns| - 1
        ensures !ns[1..][i].SongChanged? && !ns[1..][i].Started?
                && (ns[1..][i].Playing? ==> ns[1..][i].elapsed >= 60)
      {
        assert ns[1..][i] == ns[i + 1];
      }
      LateUpdatesUninterrupted(Step(s, ns[0]), ns[1..]);
    }
  }

  /**
   * Between two restarts, the timer grows by exactly the clock seconds during
   * which it runs: paused time is never added, while time after an end is.
   */
  lemma {:induction false} ElapsedIsPlayedTime(s: InstanceState, ns: seq<Notification>)
    requires Uninterrupted(s, ns)
    ensures Replay(s, ns).elapsed == s.elapsed + PlayedSeconds(s.running, ns)
    decreases |ns|
  {
    if ns != [] {
      ElapsedIsPlayedTime(Step(s, ns[0]), ns[1..]);
    }
  }

  /**
   * While the timer is stopped, clock time, ends and MPD updates that are no
   * repeat leave it stopped at the time it held.
   */
  lemma {:induction false} PausedTimerFrozen(s: InstanceState, ns: seq<Notification>)
    requires !s.running
    requires forall i :: 0 <= i < |ns| ==>
               || ns[i].Ended? || ns[i].Tick?
               || (ns[i].Playing? && !SongRepeated(ns[i].song, ns[i].elapsed, s.elapsed))
    ensures Replay(s, ns).elapsed == s.elapsed && !Replay(s, ns).running
    decreases |ns|
  {
    if ns != [] {
      forall i | 0 <= i < |ns| - 1
        ensures || ns[1..][i].Ended? || ns[1..][i].Tick?
                || (ns[1..][i].Playing? && !SongRepeated(ns[1..][i].song, ns[1..][i].elapsed, s.elapsed))
      {
        assert ns[1..][i] == ns[i + 1];
      }
      PausedTimerFrozen(Step(s, ns[0]), ns[1..]);
    }
  }

  /**
   * Once the timer says the song has played long enough, pausing, resuming,
   * ending and later MPD updates cannot undo it.
   */
  lemma EligibilityKept(s: InstanceState, ns: seq<Notification>, length: int)
    requires Uninterrupted(s, ns) && PlayedLongEnough(s.elapsed, length)
    ensures PlayedLongEnough(Replay(s, ns).elapsed, length)
  {
    ElapsedIsPlayedTime(s, ns);
    PlayedLongEnoughMonotone(s.elapsed, Replay(s, ns).elapsed, length);
  }

  /** Two uninterrupted runs that play the song for the same time leave the same timer. */
  lemma PausesIrrelevant(s: InstanceState, ns: seq<Notification>, ms: seq<Notification>)
    requires Uninterrupted(s, ns) && Uninterrupted(s, ms)
    requires PlayedSeconds(s.running, ns) == PlayedSeconds(s.running, ms)
    ensures Replay(s, ns).elapsed == Replay(s, ms).elapsed
  {
    ElapsedIsPlayedTime(s, ns);
    ElapsedIsPlayedTime(s, ms);
  }

  /**
   * An end leaves the timer as it was, so a second end of a song that played
   * long enough, with no restart between, scrobbles it a second time.
   */
  lemma EndedTwiceScrobblesTwice(s: InstanceState, song: Song, first: bool, second: bool)
    requires PlayedLongEnough(s.elapsed, song.duration)
    ensures var t := AfterEnded(AfterEnded(s, song, first), song, second);
      && t.elapsed == s.elapsed && t.running == s.running
      && t.reports == s.reports + [Scrobble(song, s.elapsed, first), Scrobble(song, s.elapsed, second)]
  {
  }

  /** Reports are only ever appended: nothing sent to the scrobblers is taken back. */
  lemma {:induction false} ReplayExtendsReports(s: InstanceState, ns: seq<Notification>)
    ensures |Replay(s, ns).reports| >= |s.reports|
    ensures Replay(s, ns).reports[..|s.reports|] == s.reports
    decreases |ns|
  {
    if ns != [] {
      var t := Step(s, ns[0]);
      assert |t.reports| >= |s.reports| && t.reports[..|s.reports|] == s.reports;
      ReplayExtendsReports(t, ns[1..]);
      assert Replay(s, ns) == Replay(t, ns[1..]);
      assert Replay(t, ns[1..]).reports[..|s.reports|]
          == Replay(t, ns[1..]).reports[..|t.reports|][..|s.reports|];
    }
  }

  /** Every scrobble in the report stream carries a positive length. */
  predicate ScrobblesTimed(reports: seq<Report>) {
    forall i :: 0 <= i < |reports| && reports[i].SongChange? ==> reports[i].length > 0
  }

  lemma StepKeepsScrobblesTimed(s: InstanceState, n: Notification)
    requires ScrobblesTimed(s.reports)
    ensures ScrobblesTimed(Step(s, n).reports)
  {
  }

  /** No notification sequence ever produces a scrobble of length zero. */
  lemma {:induction false} ReplayKeepsScrobblesTimed(s: InstanceState, ns: seq<Notification>)
    requires ScrobblesTimed(s.reports)
    ensures ScrobblesTimed(Replay(s, ns).reports)
    decreases |ns|
  {
    if ns != [] {
      StepKeepsScrobblesTimed(s, ns[0]);
      ReplayKeepsScrobblesTimed(Step(s, ns[0]), ns[1..]);
    }
  }

  /**
   * The daemon's `Instance` as far as playback goes: the GLib timer (elapsed
   * whole seconds and whether it runs) and the reports sent to the scrobblers.
   */
  class Instance {
    var elapsed: nat
    var running: bool
    var reports: seq<Report>

    function State(): InstanceState
      reads this
    {
      InstanceState(elapsed, running, reports)
    }

    /** A fresh instance: the timer was just created (and so runs from zero), nothing was sent. */
    constructor ()
      ensures State() == InstanceState(0, true, [])
    {
      elapsed, running, reports := 0, true, [];
    }

    /** The clock advances by `seconds` while no notification arrives. */
    method Advance(seconds: nat)
      modifies this
      ensures State() == AfterTick(old(State()), seconds)
    {
      if running {
        elapsed := elapsed + seconds;
      }
    }

    method OnMpdSongChanged(song: Song)
      modifies this
      ensures State() == AfterSongChanged(old(State()), song)
    {
      // g_timer_start: reset and run
      elapsed, running := 0, true;
      reports := reports + [Announcement(song)];
    }

    method OnMpdPaused()
      modifies this
      ensures State() == AfterPaused(old(State()))
    {
      running := false;
    }

    method OnMpdResumed()
      modifies this
      ensures State() == AfterResumed(old(State()))
    {
      running := true;
    }

    method OnMpdStarted(song: Song)
      modifies this
      ensures State() == AfterSongChanged(old(State()), song)
    {
      OnMpdSongChanged(song);
    }

    method OnMpdPlaying(song: Song, mpdElapsed: int)
      modifies this
      ensures State() == AfterPlaying(old(State()), song, mpdElapsed)
    {
      var prevElapsed := elapsed;
      if SongRepeated(song, mpdElapsed, prevElapsed) {
        // the song is looping: stop it virtually and start it again
        OnMpdEnded(song, false);
        OnMpdStarted(song);
      }
    }

    method OnMpdEnded(song: Song, love: bool)
      modifies this
      ensures State() == AfterEnded(old(State()), song, love)
    {
      if !PlayedLongEnough(elapsed, song.duration) {
        return;
      }
      reports := reports + [Scrobble(song, elapsed, love)];
    }
  }
}
