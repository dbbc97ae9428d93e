/** The chain watcher's state machine: the one-second countdown tick, the alarm
    controller, the poll step against the remote chain endpoint, and start/stop. */
module Watcher {

  import opened Optional
  import opened Clock
  import opened Mixer

  /** The operator's configuration, as far as the core reads it. */
  datatype Settings = Settings(
    apiInterval: int,
    panicInterval: int,
    alarmTriggerSeconds: int,
    preAlarmTriggerSeconds: int,
    alarmVolume: real,
    alarmSoundChoice: string,
    preAlarmSoundChoice: string,
    backupTimerEnabled: bool)

  /** The values the application starts with before any settings file is read. */
  const DefaultSettings: Settings := Settings(
    5, 2, 60, 90, 0.5,
    "chainwatch_data/mixkit-classic-alarm-995.wav",
    "chainwatch_data/mixkit-retro-game-emergency-alarm-1000.wav",
    false)

  /** What one request to the chain endpoint yields: a failure of any kind before the
      `end` field could be read (connection, HTTP status, JSON, missing `chain` or `end`),
      or the chain's `end` timestamp with its `timeout` field when present. */
  datatype PollResult = Failed | Chain(end: int, timeout: Option<int>)

  /** The remote `end` is stored one second early. */
  const EndOffset: int := 1

  /** Whether an attempt ends without an exception: the endpoint answered with an end
      time, and with a timeout too whenever the backup timer needs one. */
  function PollSucceeds(result: PollResult, backupEnabled: bool): (ok: bool)
    ensures ok ==> result.Chain?
    ensures !backupEnabled ==> (ok <==> result.Chain?)
    ensures result.Chain? && result.timeout.Some? ==> ok
    ensures backupEnabled ==> (ok <==> result.Chain? && result.timeout.Some?)
  {
    result.Chain? && (backupEnabled ==> result.timeout.Some?)
  }

  class ChainWatcher {
    var settings: Settings
    var remainingSeconds: nat
    var backupRemainingSeconds: int
    var chainEndTime: int
    var running: bool
    var panicMode: bool
    /** The poll loop's failure flag: whether its previous attempt failed. */
    var apiFailed: bool
    /** The text of the time label. */
    var timeLabel: string
    /** The text of the diagnostics box. */
    var diagnosticsText: string
    const player: MusicPlayer

    constructor (config: Settings)
      ensures settings == config
      ensures remainingSeconds == 0 && backupRemainingSeconds == 0 && chainEndTime == 0
      ensures !running && !panicMode && !apiFailed
      ensures timeLabel == "T-: 00:00" && diagnosticsText == BackupDisabledText
      ensures fresh(player) && !player.busy && player.starts == 0
    {
      settings := config;
      remainingSeconds, backupRemainingSeconds, chainEndTime := 0, 0, 0;
      running, panicMode, apiFailed := false, false, false;
      timeLabel, diagnosticsText := "T-: 00:00", BackupDisabledText;
      player := new MusicPlayer();
    }

    // The alarm controller

    /** Loads the chosen alarm track and starts it, whatever is playing. */
    method PlayAlarm(loop: bool)
      modifies player
      ensures player.busy && player.track == settings.alarmSoundChoice
      ensures player.looping == loop && player.volume == settings.alarmVolume
      ensures player.starts == old(player.starts) + 1
    {
      player.Load(settings.alarmSoundChoice);
      player.SetVolume(settings.alarmVolume);
      player.Play(loop);
    }

    /** Starts the chosen pre-alarm track only when nothing is playing. */
    method PlayPreAlarm(loop: bool)
      modifies player
      ensures old(player.busy) ==> unchanged(player)
      ensures !old(player.busy) ==>
        player.busy && player.track == settings.preAlarmSoundChoice &&
        player.looping == loop && player.volume == settings.alarmVolume &&
        player.starts == old(player.starts) + 1
    {
      var busy := player.GetBusy();
      if !busy {
        player.Load(settings.preAlarmSoundChoice);
        player.SetVolume(settings.alarmVolume);
        player.Play(loop);
      }
    }

    /** Stops whatever is playing. */
    method StopPreAlarm()
      modifies player
      ensures !player.busy
      ensures player.track == old(player.track) && player.looping == old(player.looping)
      ensures player.volume == old(player.volume) && player.starts == old(player.starts)
    {
      var busy := player.GetBusy();
      if busy {
        player.Stop();
      }
    }

    // The countdown engine

    /** The first half of a timer pass at wall-clock second `now`: recompute the remaining
        time, refresh the time label, and count the backup timer down in the diagnostics box. */
    method RefreshDisplay(now: int)
      modifies this
      ensures remainingSeconds == ClampZero(chainEndTime - now)
      ensures timeLabel == TimerText(remainingSeconds)
      ensures settings.backupTimerEnabled ==>
        backupRemainingSeconds == ClampZero(old(backupRemainingSeconds) - 1) &&
        diagnosticsText == BackupText(true, ClampZero(old(backupRemainingSeconds) - 1))
      ensures !settings.backupTimerEnabled ==>
        backupRemainingSeconds == old(backupRemainingSeconds) && diagnosticsText == BackupDisabledText
      ensures settings == old(settings) && chainEndTime == old(chainEndTime)
      ensures running == old(running) && panicMode == old(panicMode) && apiFailed == old(apiFailed)
    {
      remainingSeconds := ClampZero(chainEndTime - now);

      if remainingSeconds <= 0 {
        timeLabel := "T-: 00:00";
      } else {
        timeLabel := TimerPrefix + ClockText(remainingSeconds);
      }

      if settings.backupTimerEnabled {
        var backup := ClampZero(backupRemainingSeconds - 1);
        backupRemainingSeconds := backup;
        diagnosticsText := BackupPrefix + ClockText(backup);
      } else {
        diagnosticsText := BackupDisabledText;
      }
    }

    /** One pass of the timer loop at wall-clock second `now`: recompute the remaining
        time, refresh both labels, count the backup timer down, and drive the player
        from the zone, which is returned. */
    method Tick(now: int) returns (zone: Zone)
      modifies this, player
      ensures remainingSeconds == ClampZero(chainEndTime - now)
      ensures timeLabel == TimerText(remainingSeconds)
      ensures settings.backupTimerEnabled ==>
        backupRemainingSeconds == ClampZero(old(backupRemainingSeconds) - 1) &&
        diagnosticsText == BackupText(true, ClampZero(old(backupRemainingSeconds) - 1))
      ensures !settings.backupTimerEnabled ==>
        backupRemainingSeconds == old(backupRemainingSeconds) && diagnosticsText == BackupDisabledText
      ensures zone == Classify(remainingSeconds, settings.alarmTriggerSeconds, settings.preAlarmTriggerSeconds)
      ensures zone == Alarm ==>
        player.busy && player.track == settings.alarmSoundChoice && player.looping &&
        player.volume == settings.alarmVolume && player.starts == old(player.starts) + 1
      ensures zone == PreAlarm && old(player.busy) ==> unchanged(player)
      ensures zone == PreAlarm && !old(player.busy) ==>
        player.busy && player.track == settings.preAlarmSoundChoice && player.looping &&
        player.volume == settings.alarmVolume && player.starts == old(player.starts) + 1
      ensures zone == Normal ==>
        !player.busy && player.track == old(player.track) && player.looping == old(player.looping) &&
        player.volume == old(player.volume) && player.starts == old(player.starts)
      ensures settings == old(settings) && chainEndTime == old(chainEndTime)
      ensures running == old(running) && panicMode == old(panicMode) && apiFailed == old(apiFailed)
    {
      RefreshDisplay(now);

      if remainingSeconds <= settings.alarmTriggerSeconds {
        zone := Alarm;
        PlayAlarm(true);
      } else if remainingSeconds <= settings.preAlarmTriggerSeconds {
        zone := PreAlarm;
        PlayPreAlarm(true);
      } else {
        zone := Normal;
        StopPreAlarm();
      }
    }

    // The poller

    /** One pass of the poll loop: choose the sleep interval from the previous attempt's
        outcome, then apply the answer `result` received at wall-clock second `now`. */
    method PollStep(result: PollResult, now: int) returns (interval: int)
      modifies this
      ensures interval == if old(apiFailed) then settings.panicInterval else settings.apiInterval
      ensures apiFailed == !PollSucceeds(result, settings.backupTimerEnabled)
      ensures result.Failed? ==> chainEndTime == old(chainEndTime)
      ensures result.Chain? ==> chainEndTime == result.end - EndOffset
      ensures result.Chain? && settings.backupTimerEnabled && result.timeout.Some? ==>
        backupRemainingSeconds == result.timeout.value
      ensures !(result.Chain? && settings.backupTimerEnabled && result.timeout.Some?) ==>
        backupRemainingSeconds == old(backupRemainingSeconds)
      ensures PollSucceeds(result, settings.backupTimerEnabled) ==>
        panicMode == (chainEndTime - now <= settings.alarmTriggerSeconds)
      ensures !PollSucceeds(result, settings.backupTimerEnabled) ==> panicMode == old(panicMode)
      ensures settings == old(settings) && running == old(running) && remainingSeconds == old(remainingSeconds)
      ensures timeLabel == old(timeLabel) && diagnosticsText == old(diagnosticsText)
    {
      interval := if apiFailed then settings.panicInterval else settings.apiInterval;
      match result {
        case Failed =>
          apiFailed := true;
        case Chain(end, timeout) =>
          chainEndTime := end - EndOffset;
          if settings.backupTimerEnabled && timeout.None? {
            // the `timeout` lookup raises after the end time was stored
            apiFailed := true;
          } else {
            if settings.backupTimerEnabled {
              backupRemainingSeconds := timeout.value;
            }
            apiFailed := false;
            panicMode := chainEndTime - now <= settings.alarmTriggerSeconds;
          }
      }
    }

    // Start and stop

    /** Starts the poll and timer loops unless they are running already; a fresh poll loop
        begins with its failure flag clear. */
    method StartWatching() returns (started: bool)
      modifies this
      ensures started == !old(running)
      ensures running
      ensures apiFailed == (old(running) && old(apiFailed))
      ensures settings == old(settings) && remainingSeconds == old(remainingSeconds)
      ensures backupRemainingSeconds == old(backupRemainingSeconds) && chainEndTime == old(chainEndTime)
      ensures panicMode == old(panicMode)
      ensures timeLabel == old(timeLabel) && diagnosticsText == old(diagnosticsText)
    {
      started := !running;
      if !running {
        running := true;
        apiFailed := false;
      }
    }

    /** Stops both loops at their next check, leaves panic mode and silences the player. */
    method StopWatching()
      modifies this, player
      ensures !running && !panicMode && !player.busy
      ensures player.track == old(player.track) && player.looping == old(player.looping)
      ensures player.volume == old(player.volume) && player.starts == old(player.starts)
      ensures settings == old(settings) && remainingSeconds == old(remainingSeconds)
      ensures backupRemainingSeconds == old(backupRemainingSeconds) && chainEndTime == old(chainEndTime)
      ensures apiFailed == old(apiFailed)
      ensures timeLabel == old(timeLabel) && diagnosticsText == old(diagnosticsText)
    {
      running := false;
      panicMode := false;
      player.Stop();
    }
  }

  // Clients: what the contracts above let a caller conclude.

  /** A chain 125 seconds from its end under the default thresholds (alarm 60, pre-alarm 90):
      normal at first, one pre-alarm start at 89 seconds left that the next second leaves
      alone, then the alarm at 59 seconds left, restarted on every later tick. */
  method CountdownScenario(start: int) {
    var w := new ChainWatcher(DefaultSettings);
    var _ := w.StartWatching();
    var interval := w.PollStep(Chain(start + 126, None), start);
    assert interval == 5 && w.chainEndTime == start + 125 && !w.apiFailed && !w.panicMode;

    var zone := w.Tick(start);
    TimerTextExamples();
    assert zone == Normal && w.timeLabel == "T-: 02:05" && !w.player.busy;

    zone := w.Tick(start + 36);
    assert w.remainingSeconds == 89 && zone == PreAlarm;
    assert w.player.busy && w.player.track == DefaultSettings.preAlarmSoundChoice && w.player.starts == 1;
    zone := w.Tick(start + 37);
    assert zone == PreAlarm && w.player.starts == 1;

    zone := w.Tick(start + 66);
    assert w.remainingSeconds == 59 && zone == Alarm;
    assert w.player.track == DefaultSettings.alarmSoundChoice && w.player.looping && w.player.starts == 2;
    zone := w.Tick(start + 67);
    assert zone == Alarm && w.player.starts == 3;

    zone := w.Tick(start + 200);
    assert w.remainingSeconds == 0 && w.timeLabel == "T-: 00:00" && zone == Alarm;
  }

  /** Three failed polls after a success: the end time stays at the last good value and
      every later pass sleeps for the panic interval. */
  method FailureScenario(end: int, now: int) {
    var w := new ChainWatcher(DefaultSettings);
    var _ := w.StartWatching();
    var interval := w.PollStep(Chain(end, None), now);
    assert interval == 5 && w.chainEndTime == end - 1;
    interval := w.PollStep(Failed, now + 5);
    assert interval == 5 && w.apiFailed && w.chainEndTime == end - 1;
    interval := w.PollStep(Failed, now + 7);
    assert interval == 2 && w.apiFailed && w.chainEndTime == end - 1;
    interval := w.PollStep(Failed, now + 9);
    assert interval == 2 && w.apiFailed && w.chainEndTime == end - 1;
    interval := w.PollStep(Chain(end + 300, None), now + 11);
    assert interval == 2 && !w.apiFailed && w.chainEndTime == end + 299;
    interval := w.PollStep(Chain(end + 300, None), now + 16);
    assert interval == 5;
  }

  /** With the backup timer on, an answer without a timeout still moves the end time but
      counts as a failure; the backup countdown keeps going from its last seed. */
  method BackupScenario(now: int) {
    var config := DefaultSettings.(backupTimerEnabled := true);
    var w := new ChainWatcher(config);
    var _ := w.StartWatching();
    var interval := w.PollStep(Chain(now + 1000, Some(2)), now);
    assert !w.apiFailed && w.backupRemainingSeconds == 2;
    interval := w.PollStep(Chain(now + 2000, None), now);
    assert w.apiFailed && w.chainEndTime == now + 1999 && w.backupRemainingSeconds == 2;
    var zone := w.Tick(now);
    assert w.backupRemainingSeconds == 1 && zone == Normal;
    zone := w.Tick(now + 1);
    zone := w.Tick(now + 2);
    assert w.backupRemainingSeconds == 0;
  }

  /** Stopping while the alarm plays silences the player at once; a second start is
      refused while the loops still run. */
  method StopScenario(now: nat) {
    var w := new ChainWatcher(DefaultSettings);
    var started := w.StartWatching();
    assert started;
    started := w.StartWatching();
    assert !started;
    var zone := w.Tick(now);
    assert zone == Alarm && w.player.busy;
    w.StopWatching();
    assert !w.running && !w.panicMode && !w.player.busy && w.player.starts == 1;
  }
}
