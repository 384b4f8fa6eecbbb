# mpdscribble core, modelled in Dafny

mpdscribble is a daemon that watches an MPD music server and reports
("scrobbles") the songs it plays to Last.fm-style services. This project
models two parts of it and proves properties of the model:

- **Playback decisions** (`playback.dfy`, module `Playback`, from
  `src/Main.cxx`). This covers three things:
  - the scrobble rule `played_long_enough`;
  - the repeat detector `song_repeated`;
  - the `Instance::OnMpd*` notification handlers, which drive the daemon's
    playback timer and hand `NowPlaying` / `SongChange` reports to the
    scrobbler set.

  The handlers are a class `Playback.Instance` with the following state:
  - the timer, as whole elapsed seconds plus a running flag;
  - the reports sent so far, as a sequence.

  Each method is proved equal to a pure state-transition function
  (`AfterSongChanged`, `AfterEnded`, ...). Lemmas about sequences of
  notifications (`Replay`) state what the timer measures and what is reported.
- **Configuration resolution** (`config_file.dfy`, module `ConfigFile`, from
  `src/file.c`). This covers:
  - `file_atoi` and C's `atoi` (ISO C section 7.22.1.2);
  - tilde expansion;
  - the default configuration, log and cache paths;
  - `load_string` and `load_integer`;
  - the key loads of `load_config_file`;
  - everything `file_read_config` does after the command line has been
    parsed.

  `Resolve` states the outcome as precedence: command line, then the
  configuration file, then the environment, then built-in defaults. The
  reference functions `FirstGiven` / `FirstSet` pick the first source that
  supplies a value. `ReadConfig` is the step-by-step procedure, proved to
  compute `Resolve`. Fatal `g_error` calls are `Err` results of type
  `ConfigFile.Error`.

`wrappers.dfy` holds the `Option` and `Result` types. A NULL `char *` is
`None`.

The model has these inputs, because reading them is I/O:
- The process environment: HOME, MPD_HOST, MPD_PORT and http_proxy.
- The set of regular files (`g_file_test`).
- The parsed key files (`g_file_get_contents` plus GKeyFile).
- The build-time `FILE_CONF` path.
- Wall-clock time, which reaches the timer as explicit `Tick` / `Advance`
  steps.

Where the code and its comments disagree, the model follows the code:
- The comment at `src/Main.cxx:76-80` quotes "at least 240 seconds or half
  the track's total length". The code scrobbles only for strictly more than
  240 seconds, or strictly more than `length / 2` and only when
  `length >= 30`. `PlayedLongEnough` states that rule as written.

Behaviours of the code that the model keeps on purpose:
- An unset `sleep` stays -1. Only 0 is replaced by 1 (`SleepResolution`).
- An MPD_PORT such as `"abc"` resolves to port 0, because `atoi` reads no
  digits.
- A configuration file given with `--conf` leaves the location unknown. A
  log or cache path that is missing is then fatal
  (`ExplicitConfigNeedsLogPath`, `ExplicitConfigNeedsCachePath`).
- `OnMpdEnded` does not stop the timer. A second end with no restart
  between them scrobbles the song again (`EndedTwiceScrobblesTwice`), and
  clock time after an end still counts.
- With HOME unset, `~` becomes `"./"`, so the home log path is
  `".//.mpdscribble/mpdscribble.log"`.

## Model

| member | source | states |
|---|---|---|
| Playback.PlayedLongEnough | src/Main.cxx:73-83 | more than 240 s always suffices; for a length under 30 s nothing else does; from 30 s on the result is exactly "elapsed exceeds the lower of 240 and length/2" |
| Playback.PlayedLongEnoughMonotone | src/Main.cxx:82 | once played long enough, a longer play is also long enough |
| Playback.SongRepeated | src/Main.cxx:90-97 | a repeat holds exactly when MPD's elapsed is under 60, went back, and the gap passes the scrobble rule; hence never at 60 s or more, never without going back, and the gap exceeds 15 s (240 s for songs under 30 s) |
| Playback.AfterSongChanged | src/Main.cxx:99-115 | the timer restarts from zero and runs; exactly one `NowPlaying` with the song's tags and duration is appended |
| Playback.AfterPaused | src/Main.cxx:131-135 | the timer stops with its measured time kept; no report |
| Playback.AfterResumed | src/Main.cxx:140-144 | the timer runs again from the time it held, without reset; no report |
| Playback.AfterTick | src/Main.cxx:131-144 | clock time adds to the timer only while it runs |
| Playback.AfterEnded | src/Main.cxx:176-197 | the timer is untouched; nothing is reported unless the timer passes the scrobble rule, otherwise exactly one `SongChange` with the song's uri, artist, title, album, track and MusicBrainz id, the given love flag and a positive length that is the duration if known, else the timer |
| Playback.AfterPlaying | src/Main.cxx:158-171 | with no repeat the state is unchanged; on a repeat, the end's optional `SongChange` (love false) then a `NowPlaying`, and the timer restarts; for a non-negative MPD elapsed the scrobble is always sent |
| Playback.ElapsedIsPlayedTime | src/Main.cxx:131-144 | across pauses, resumes, ends, clock time and MPD updates that are no repeat, the timer grows by exactly the clock seconds during which it runs, from a start or resume to the next pause (reference `PlayedSeconds`); an end does not stop it, so time after an end counts; a pause of a paused timer is taken to keep it stopped |
| Playback.LateUpdatesUninterrupted | src/Main.cxx:90-97 | MPD updates at 60 s or later, with pauses, resumes, ends and clock time, never restart the timer |
| Playback.PausedTimerFrozen | src/Main.cxx:131-135 | while paused, clock time, ends and MPD updates that are no repeat never make the timer grow or run |
| Playback.EligibilityKept | src/Main.cxx:76-82 | pausing, resuming, ending and MPD updates that are no repeat never take back eligibility once reached |
| Playback.PausesIrrelevant | src/Main.cxx:76-82 | two runs without a restart that play the song equally long leave the same timer, however they pause |
| Playback.EndedTwiceScrobblesTwice | src/Main.cxx:176-197 | an end leaves the timer running as it was, so a second end of a song that played long enough scrobbles it again |
| Playback.ReplayExtendsReports | src/Main.cxx:99-197 | reports are only appended: every earlier report stays in place |
| Playback.StepKeepsScrobblesTimed | src/Main.cxx:186-196 | one notification never adds a `SongChange` of length 0 |
| Playback.ReplayKeepsScrobblesTimed | src/Main.cxx:186-196 | no notification sequence ever adds a `SongChange` of length 0 |
| Playback.Instance.Advance | src/Main.cxx:131-144 | the new state is `AfterTick` of the old |
| Playback.Instance.OnMpdSongChanged | src/Main.cxx:99-115 | the new state is `AfterSongChanged` of the old |
| Playback.Instance.OnMpdPaused | src/Main.cxx:131-135 | the new state is `AfterPaused` of the old |
| Playback.Instance.OnMpdResumed | src/Main.cxx:140-144 | the new state is `AfterResumed` of the old |
| Playback.Instance.OnMpdStarted | src/Main.cxx:149-153 | behaves as a song change: the new state is `AfterSongChanged` of the old |
| Playback.Instance.OnMpdPlaying | src/Main.cxx:158-171 | the new state is `AfterPlaying` of the old, comparing with the timer's time before the call |
| Playback.Instance.OnMpdEnded | src/Main.cxx:176-197 | the new state is `AfterEnded` of the old |
| ConfigFile.FirstGiven | src/file.c:249-252 | the result is absent only if every source is absent, otherwise it is the first supplied value |
| ConfigFile.FirstSet | src/file.c:257-260 | the result is -1 only if every source is -1, otherwise it is the first value other than -1 |
| ConfigFile.AtoiReadsDecimal | src/file.c:52-58 | `atoi` reads a decimal numeral back as its value, whatever non-digit follows |
| ConfigFile.FileAtoi | src/file.c:52-58 | NULL gives 0, otherwise C's `atoi` |
| ConfigFile.ExpandTilde | src/file.c:65-78 | a path not starting with `~` is returned unchanged; otherwise HOME (or `./` if unset) followed by the path without its `~` |
| ConfigFile.DefaultConfigPath | src/file.c:80-96 | the home file wins and sets the location to Home; else the system file, with location Etc; with neither, no path and the location unchanged |
| ConfigFile.DefaultLogPath | src/file.c:98-114 | fatal exactly when the location is unknown; the system log for Etc; HOME's `.mpdscribble/mpdscribble.log` for Home |
| ConfigFile.DefaultCachePath | src/file.c:116-132 | fatal exactly when the location is unknown; the system cache for Etc; HOME's `.mpdscribble/mpdscribble.cache` for Home |
| ConfigFile.LoadString | src/file.c:134-153 | fails exactly on an unreadable value for an open setting, and reports that key and message; otherwise the current value if set, else the file's; a missing key changes nothing |
| ConfigFile.LoadInteger | src/file.c:155-173 | as `LoadString`, with -1 meaning "not set" |
| ConfigFile.LoadConfigFile | src/file.c:201-212 | succeeds exactly when all eleven keys load; each setting becomes its current value if set, else the file's; errors are bad values |
| ConfigFile.Finish | src/file.c:249-268 | after the last defaults, host, port, cache interval and verbosity are set and sleep is not 0; the credentials, conf, loc and musicdir are kept |
| ConfigFile.Defaults | src/file.c:249-268 | fatal exactly when the location is unknown and the log (checked first) or the cache path is missing |
| ConfigFile.Resolve | src/file.c:217-271 | no file found is fatal; an unreadable file is fatal; success means the file loaded, every mandatory setting is present, and conf/loc are the chosen file |
| ConfigFile.ReadConfig | src/file.c:217-271 | the step-by-step procedure computes exactly `Resolve` |
| ConfigFile.ApplyDefaults | src/file.c:249-268 | the chain of conditional assignments computes exactly `Defaults` |
| ConfigFile.CommandLineWins | src/file.c:134-173 | every setting given on the command line survives resolution (a sleep of 0 becomes 1) |
| ConfigFile.HostPrecedence | src/file.c:249-252 | host is the first of command line, file, MPD_HOST, "localhost" |
| ConfigFile.PortPrecedence | src/file.c:257-260 | port is the first set value of command line, file, `atoi(MPD_PORT)`, 6600 |
| ConfigFile.ProxyPrecedence | src/file.c:261-262 | proxy is the first of command line, file, http_proxy, possibly none |
| ConfigFile.IntervalAndVerbosityPrecedence | src/file.c:265-268 | cache interval is the first of command line, file, 600; verbosity the first of command line, file, 2 |
| ConfigFile.SleepResolution | src/file.c:263-264 | sleep is the command line's, else the file's, with 0 replaced by 1; unset everywhere it stays -1 |
| ConfigFile.PathsPrecedence | src/file.c:253-256 | log and cache come from the command line, else the file, else the default for the chosen file's location, which is then known |
| ConfigFile.CredentialsPrecedence | src/file.c:201-205 | username, password and music directory are the command line's, else the file's |
| ConfigFile.MissingCredentialsFatal | src/file.c:243-248 | a loaded file without a username is fatal with NoUsername; with a username but no password, with NoPassword |
| ConfigFile.ExplicitConfigNeedsLogPath | src/file.c:232-254 | with `--conf` and no log path on the command line or in the file, resolution fails with NoLogPath |
| ConfigFile.ExplicitConfigNeedsCachePath | src/file.c:232-256 | with `--conf`, a log path but no cache path on the command line or in the file, resolution fails with NoCachePath |
| ConfigFile.ResolveSucceeds | src/file.c:217-271 | resolution succeeds exactly when a file is found and loads, username and password are given, and log and cache are given or the file's location supplies them |
| ConfigFile.BadValueFatal | src/file.c:134-173 | an unreadable value for a setting the command line left open is fatal with a bad-value error |

## Left out

- The submission engine: the scrobbler set, queue, journal, handshake and retries. Its source is not part of this model. The scrobbler set is represented only by the reports it receives.
- `main`, `setup_signals`, the signal handlers, the GLib main loop and the journal timer in `src/Main.cxx`. This is process and event-loop glue.
- `src/daemon.h`. It only declares I/O routines.
- `Instance.cxx` is not part of this model. `Playback.Instance.constructor` assumes a fresh timer starts at zero and runs, as `g_timer_new` does, and that nothing has been sent.
- File reading and GKeyFile parsing in `load_config_file` (`src/file.c:183-199`). These are library calls, so the parsed key file is an input (`KeyFile`) and a file that cannot be read or parsed is `CannotLoad`.
- `getenv`, `g_file_test` and the build-time `FILE_CONF` value. These are inputs (`Environment`).
- `parse_cmdline`. Its output is the `CommandLine` input, so the command-line syntax is not modelled.
- Floating-point timer values. `g_timer_elapsed` is modelled as whole seconds, matching the `int` conversion at `src/Main.cxx:161` and `179`.
- Playback.AfterEnded: the second `g_timer_elapsed` read (`src/Main.cxx:194`) is taken to equal the first. The model has no time passing inside one handler.
- A second `g_timer_stop` on a stopped timer, and other GLib timer edge cases. The model treats stop and continue as setting the running flag.
- Song durations: the `unsigned` song duration is an unbounded `nat`. Its conversion to the `int` parameter of `played_long_enough` does not wrap.
- ConfigFile.Atoi: undefined behaviour for values outside `int` is not modelled. Values are unbounded integers.
- Logging (`g_message`, `g_debug`) and the trailing `nullptr` argument of `SongChange`.
- `file_cleanup` and all freeing. Memory management has no counterpart in the model.
- The call `file_read_config()` at `src/Main.cxx:206` does not match the definition at `src/file.c:217`. The model follows `src/file.c` as written.
- ConfigFile.LoadConfigFile: its contract says an error is a bad value, but not which bad key is reported first. The order is the order of the loads in its body.
