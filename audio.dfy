/**
 * Audio channels: each channel keeps a small resource of request flags that the menu and
 * game states set and that one system per request turns into a command to the channel,
 * clearing the flags again.
 */
module Audio {
  import opened Wrappers

  /** An asset handle: an audio source or a playing instance. */
  type Handle = nat

  /** What a system asks the audio channel to do. */
  datatype Command = Play(source: Handle, looped: bool) | Pause | Resume | Stop | SetVolume(volume: real)

  /** The contents of a `ChannelState` resource. */
  datatype Channel = Channel(
    handle: Option<Handle>,
    instanceHandle: Option<Handle>,
    looped: bool,
    paused: bool,
    resumed: bool,
    stopped: bool,
    volume: real)

  /** No request pending: none of the four flags is set. */
  predicate Quiet(c: Channel) {
    !c.looped && !c.paused && !c.resumed && !c.stopped
  }

  /** A channel after one system has run, and the command it issued, if any. */
  datatype Step = Step(channel: Channel, command: Option<Command>)

  /** `ChannelState::default`: nothing loaded, nothing playing, no request, full volume. */
  function DefaultChannel(): (c: Channel)
    ensures Quiet(c) && c.handle == None && c.instanceHandle == None && c.volume == 1.0
  {
    Channel(None, None, false, false, false, false, 1.0)
  }

  /** `ChannelState::reset`: clears the four request flags and nothing else. */
  function ResetFlags(c: Channel): (r: Channel)
    ensures Quiet(r)
    ensures r.handle == c.handle && r.instanceHandle == c.instanceHandle && r.volume == c.volume
  {
    c.(looped := false, paused := false, resumed := false, stopped := false)
  }

  /**
   * `play_menu_music` and `play_game_music`: stop the channel, then load `source` as the
   * next thing to play, looped, with a stop requested.
   */
  function SetupMusic(c: Channel, source: Handle): (s: Step)
    ensures s.command == Some(Stop)
    ensures s.channel.handle == Some(source) && s.channel.looped && s.channel.stopped
    ensures !s.channel.paused && !s.channel.resumed
    ensures s.channel.instanceHandle == c.instanceHandle && s.channel.volume == c.volume
  {
    Step(ResetFlags(c).(handle := Some(source), stopped := true, looped := true), Some(Stop))
  }

  /**
   * `play_channel`: a loaded source is played, looped exactly when the looped flag is set; the
   * new instance is remembered, the source forgotten and the flags cleared. Without a
   * source nothing happens.
   */
  function PlayChannel(c: Channel, instance: Handle): (s: Step)
    ensures s.command.Some? <==> c.handle.Some?
    ensures c.handle.Some? ==> s.command == Some(Play(c.handle.value, c.looped))
    ensures c.handle.Some? ==>
      Quiet(s.channel) && s.channel.handle == None && s.channel.instanceHandle == Some(instance) &&
      s.channel.volume == c.volume
    ensures c.handle.None? ==> s.channel == c
  {
    match c.handle
    case None => Step(c, None)
    case Some(source) => Step(ResetFlags(c).(instanceHandle := Some(instance), handle := None), Some(Play(source, c.looped)))
  }

  /**
   * The shape shared by `pause_channel`, `resume_channel` and `stop_channel`: when its flag
   * is set, the command is issued and every flag cleared; otherwise nothing happens.
   */
  function OnFlag(c: Channel, flag: bool, command: Command): (s: Step)
    ensures s.command.Some? <==> flag
    ensures flag ==> s.command == Some(command) && s.channel == ResetFlags(c)
    ensures !flag ==> s.channel == c
  {
    if flag then Step(ResetFlags(c), Some(command)) else Step(c, None)
  }

  function PauseChannel(c: Channel): (s: Step)
    ensures s.command.Some? <==> c.paused
    ensures c.paused ==> s.command == Some(Pause) && Quiet(s.channel)
    ensures !c.paused ==> s.channel == c
  {
    OnFlag(c, c.paused, Pause)
  }

  function ResumeChannel(c: Channel): (s: Step)
    ensures s.command.Some? <==> c.resumed
    ensures c.resumed ==> s.command == Some(Resume) && Quiet(s.channel)
    ensures !c.resumed ==> s.channel == c
  {
    OnFlag(c, c.resumed, Resume)
  }

  function StopChannel(c: Channel): (s: Step)
    ensures s.command.Some? <==> c.stopped
    ensures c.stopped ==> s.command == Some(Stop) && Quiet(s.channel)
    ensures !c.stopped ==> s.channel == c
  {
    OnFlag(c, c.stopped, Stop)
  }

  /** `set_channel_volume`: a non-zero volume is sent to the channel once, then zeroed. */
  function SetChannelVolume(c: Channel): (s: Step)
    ensures s.command.Some? <==> c.volume != 0.0
    ensures c.volume != 0.0 ==> s.command == Some(SetVolume(c.volume))
    ensures s.channel == c.(volume := 0.0)
  {
    if c.volume != 0.0 then Step(c.(volume := 0.0), Some(SetVolume(c.volume))) else Step(c, None)
  }

  /** A request is served once: running the same system again issues nothing. */
  lemma RequestsServedOnce(c: Channel, instance: Handle, later: Handle)
    ensures PlayChannel(PlayChannel(c, instance).channel, later).command == None
    ensures PauseChannel(PauseChannel(c).channel).command == None
    ensures ResumeChannel(ResumeChannel(c).channel).command == None
    ensures StopChannel(StopChannel(c).channel).command == None
    ensures SetChannelVolume(SetChannelVolume(c).channel).command == None
  {
  }

  /** After a music change, playing the channel first starts the new source looped. */
  lemma PlayFirstLoops(c: Channel, source: Handle, instance: Handle)
    ensures var s := PlayChannel(SetupMusic(c, source).channel, instance);
      s.command == Some(Play(source, true)) && StopChannel(s.channel).command == None
  {
  }

  /**
   * After a music change, if the stop system happens to run before the play system, the stop
   * request clears the looped flag too, and the new source plays only once. The two systems
   * are not ordered with respect to each other.
   */
  lemma StopFirstPlaysOnce(c: Channel, source: Handle, instance: Handle)
    ensures var stopped := StopChannel(SetupMusic(c, source).channel);
      stopped.command == Some(Stop) &&
      PlayChannel(stopped.channel, instance).command == Some(Play(source, false))
  {
  }

  /** The `ChannelState<T>` resource of one channel. */
  class ChannelState {
    var handle: Option<Handle>
    var instanceHandle: Option<Handle>
    var looped: bool
    var paused: bool
    var resumed: bool
    var stopped: bool
    var volume: real

    function Snapshot(): Channel
      reads this
    {
      Channel(handle, instanceHandle, looped, paused, resumed, stopped, volume)
    }

    constructor()
      ensures Snapshot() == DefaultChannel()
    {
      handle, instanceHandle := None, None;
      looped, paused, resumed, stopped := false, false, false, false;
      volume := 1.0;
    }

    method Reset()
      modifies this
      ensures Snapshot() == ResetFlags(old(Snapshot()))
    {
      stopped := false;
      looped := false;
      paused := false;
      resumed := false;
    }

    method PlayMusic(source: Handle) returns (command: Option<Command>)
      modifies this
      ensures Step(Snapshot(), command) == SetupMusic(old(Snapshot()), source)
    {
      command := Some(Stop);
      Reset();
      handle := Some(source);
      stopped := true;
      looped := true;
    }

    method Play(instance: Handle) returns (command: Option<Command>)
      modifies this
      ensures Step(Snapshot(), command) == PlayChannel(old(Snapshot()), instance)
    {
      command := None;
      if handle.Some? {
        command := Some(Command.Play(handle.value, looped));
        Reset();
        instanceHandle := Some(instance);
        handle := None;
      }
    }

    method PauseRequested() returns (command: Option<Command>)
      modifies this
      ensures Step(Snapshot(), command) == PauseChannel(old(Snapshot()))
    {
      command := None;
      if paused {
        command := Some(Pause);
        Reset();
      }
    }

    method ResumeRequested() returns (command: Option<Command>)
      modifies this
      ensures Step(Snapshot(), command) == ResumeChannel(old(Snapshot()))
    {
      command := None;
      if resumed {
        command := Some(Resume);
        Reset();
      }
    }

    method StopRequested() returns (command: Option<Command>)
      modifies this
      ensures Step(Snapshot(), command) == StopChannel(old(Snapshot()))
    {
      command := None;
      if stopped {
        command := Some(Stop);
        Reset();
      }
    }

    method ApplyVolume() returns (command: Option<Command>)
      modifies this
      ensures Step(Snapshot(), command) == SetChannelVolume(old(Snapshot()))
    {
      command := None;
      if volume != 0.0 {
        command := Some(SetVolume(volume));
        volume := 0.0;
      }
    }
  }
}
