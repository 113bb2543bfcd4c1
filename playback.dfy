/**
 * Choosing the playback command once at start-up, and the command line the
 * playback worker (`play_wav`) runs for it.
 *
 * The `which ... | wc -l` probes are shell calls outside the model; only
 * their outcome enters, as one boolean per command.
 */
module Playback {
  import opened Wrappers

  /** Result of start-up selection: the value of `play_command`, or a fatal exit. */
  datatype Selection = Use(command: string) | Exit(status: int)

  /** The value of `PLAY_CMD` names one of the two supported commands. */
  predicate Explicit(playCmd: string) {
    playCmd == "aplay" || playCmd == "sox"
  }

  /**
   * Start-up selection. `aplayFound` says whether `aplay` is on the path,
   * `playFound` whether sox's `play` is.
   * An explicit `PLAY_CMD` is used only when its command exists, with no
   * fall-back to the other one; otherwise `aplay` is preferred over `sox`.
   * The only failure is exit status 1, and it happens exactly when the
   * command to be used cannot be found.
   */
  function SelectPlayCommand(playCmd: string, aplayFound: bool, playFound: bool): (r: Selection)
    ensures r.Use? ==> (r.command == "aplay" && aplayFound) || (r.command == "sox" && playFound)
    ensures r.Exit? ==> r.status == 1
    ensures Explicit(playCmd) ==> r.Use? ==> r.command == playCmd
    ensures !Explicit(playCmd) && aplayFound ==> r == Use("aplay")
    ensures r.Exit? <==>
      if playCmd == "aplay" then !aplayFound
      else if playCmd == "sox" then !playFound
      else !aplayFound && !playFound
  {
    if Explicit(playCmd) then
      var found := if playCmd == "aplay" then aplayFound else playFound;
      if found then Use(playCmd) else Exit(1)
    else if aplayFound then
      Use("aplay")
    else if playFound then
      Use("sox")
    else
      Exit(1)
  }

  /**
   * The process `play_wav` starts: its command line, and the value it puts
   * into `AUDIODEV` first (sox reads the output device from there).
   */
  datatype Invocation = Invocation(commandLine: string, audioDev: Option<string>)

  /**
   * The `play_cmd` choice in `play_wav`, given the configured devices.
   * Any other command leaves `play_cmd` nil, `Open3.capture3` raises, the
   * exception is rescued and nothing is played: that is None here.
   */
  function PlayInvocation(playCommand: string, aplayDevice: string, soxDevice: string): (r: Option<Invocation>)
    ensures r.Some? <==> Explicit(playCommand)
    ensures playCommand == "aplay" ==> r == Some(Invocation("aplay -D " + aplayDevice, None))
    ensures playCommand == "sox" ==> r == Some(Invocation("play -", Some(soxDevice)))
  {
    if playCommand == "aplay" then
      Some(Invocation("aplay -D " + aplayDevice, None))
    else if playCommand == "sox" then
      Some(Invocation("play -", Some(soxDevice)))
    else
      None
  }

  /** Whatever start-up selects, the playback worker knows how to run it. */
  lemma SelectedCommandPlays(playCmd: string, aplayFound: bool, playFound: bool, aplayDevice: string, soxDevice: string)
    ensures SelectPlayCommand(playCmd, aplayFound, playFound).Use? ==>
      PlayInvocation(SelectPlayCommand(playCmd, aplayFound, playFound).command, aplayDevice, soxDevice).Some?
  {
  }
}
