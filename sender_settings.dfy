/**
 * sender/sender.c: the sender's settings (settings_t), their defaults, the
 * argp option table and parse_opt, and the bus watch that schedules a
 * restart. argp itself is abstracted: a command line is a sequence of
 * tokens (a long option, a short option, a positional argument), argp maps
 * an option to its key through the option table and calls parse_opt once
 * per token and once more with ARGP_KEY_END; argp_usage ends the parse.
 */
module SenderSettings {
  import opened Wrappers
  import opened Ports
  import opened DecimalText
  import opened GstGraph
  import opened RestartPolicy

  /** NB_CLI_ARGS: the number of positional arguments, RECEIVER_IP RECEIVER_PORT. */
  const NbCliArgs: nat := 2

  /** The short keys of the options (sender/sender.c:46-53; sender/main.c adds 'q' and 'r'). */
  const ShortVideoSource: char := 'i'
  const ShortAudioSource: char := 'a'
  const ShortBitrate: char := 'b'
  const ShortWidth: char := 'w'
  const ShortHeight: char := 'h'
  const ShortFramerate: char := 'f'
  const ShortNtpIp: char := 'n'
  const ShortNtpPort: char := 'p'

  /** The default strings of gstreamer_source_get_defaults (sender/sender.c:469, 474, 476-477). */
  const DefaultReceiverIp: string := "127.0.0.1"
  const DefaultClockIp: string := "45.159.204.28"
  const DefaultVideoSource: string := "videotestsrc"
  const DefaultAudioSource: string := "audiotestsrc"

  /** settings_t as a value (sender/sender.h:31-55); video_id and audio_id only sender/main.c sets. */
  datatype SettingsValue = SettingsValue(
    restartOnEos: bool, restartOnError: bool, restartTimeout: nat,
    clockIp: string, clockPort: int, receiverIp: string, receiverPorts: seq<int>,
    videosource: string, audiosource: string,
    bitrate: int, framerate: int, width: int, height: int,
    videoId: int, audioId: int)

  /**
   * gstreamer_source_get_defaults (sender/sender.c:464-482). It does not
   * touch video_id and audio_id, which keep whatever `s` held.
   */
  function Defaults(s: SettingsValue): (d: SettingsValue)
  {
    SettingsValue(true, true, 2000, DefaultClockIp, 123, DefaultReceiverIp, PortsFrom(5000),
      DefaultVideoSource, DefaultAudioSource, 3000, 30, 1920, 1080, s.videoId, s.audioId)
  }

  /** The restart policy the bus watch reads from the settings (sender/sender.c:149-155). */
  function PolicyOf(s: SettingsValue): Policy
  {
    Policy(s.restartOnError, s.restartOnEos, s.restartTimeout)
  }

  /**
   * The defaults restart on both ERROR and EOS after 2000 ms, on the six
   * ports 5000..5005, whatever the settings held before.
   */
  lemma DefaultsSpec(s: SettingsValue)
    ensures PolicyOf(Defaults(s)) == Policy(true, true, 2000)
    ensures |Defaults(s).receiverPorts| == NbPorts
    ensures forall i :: 0 <= i < NbPorts ==> Defaults(s).receiverPorts[i] == 5000 + i
    ensures Defaults(s).videoId == s.videoId && Defaults(s).audioId == s.audioId
    ensures Defaults(Defaults(s)) == Defaults(s)
  {
    PortsFromConsecutive(5000);
  }

  /** The key parse_opt is called with: an option's short key, ARGP_KEY_ARG, ARGP_KEY_END, or another special key. */
  datatype Key = Opt(c: char) | Arg | End | Special

  /** parse_opt's result: 0, argp_usage (which exits), or ARGP_ERR_UNKNOWN. */
  datatype Outcome = Done | Usage | Unknown

  /**
   * parse_opt (sender/sender.c:487-549) on the settings `s`, with
   * `argNum` positional arguments seen before this call.
   */
  function ParseStep(s: SettingsValue, key: Key, arg: string, argNum: nat): (SettingsValue, Outcome)
  {
    match key
    case Opt(c) =>
      if c == ShortVideoSource then (s.(videosource := arg), Done)
      else if c == ShortAudioSource then (s.(audiosource := arg), Done)
      else if c == ShortBitrate then (s.(bitrate := Atoi(arg)), Done)
      else if c == ShortWidth then (s.(width := Atoi(arg)), Done)
      else if c == ShortHeight then (s.(height := Atoi(arg)), Done)
      else if c == ShortFramerate then (s.(framerate := Atoi(arg)), Done)
      else if c == ShortNtpPort then (s.(clockPort := Atoi(arg)), Done)
      else if c == ShortNtpIp then (s.(clockIp := arg), Done)
      else (s, Unknown)
    case Arg =>
      if argNum >= NbCliArgs then (s, Usage)
      else if argNum == 0 then (s.(receiverIp := arg), Done)
      else (s.(receiverPorts := PortsFrom(Atoi(arg))), Done)
    case End =>
      if argNum < NbCliArgs then (s, Usage) else (s, Done)
    case Special =>
      (s, Unknown)
  }

  /** One entry of an argp option table: the long name and the key argp passes to parse_opt. */
  datatype OptionSpec = OptionSpec(name: string, key: char, argName: string)

  /** The options table as written (sender/sender.c:56-65): "audiosrc" carries the video source's key. */
  const SenderOptions: seq<OptionSpec> := [
    OptionSpec("videosrc", ShortVideoSource, "NAME"),
    OptionSpec("audiosrc", ShortVideoSource, "NAME"),
    OptionSpec("vbitrate", ShortBitrate, "BITRATE"),
    OptionSpec("width", ShortWidth, "WIDTH"),
    OptionSpec("height", ShortHeight, "HEIGHT"),
    OptionSpec("framerate", ShortFramerate, "FPS"),
    OptionSpec("ntp-ip", ShortNtpIp, "IP"),
    OptionSpec("ntp-port", ShortNtpPort, "PORT")]

  /** The table with "audiosrc" registered under SHORT_AUDIO_SOURCE, as its help text intends. */
  const CorrectedSenderOptions: seq<OptionSpec> := SenderOptions[1 := OptionSpec("audiosrc", ShortAudioSource, "NAME")]

  /** The key argp finds for a long option name: the first entry carrying it. */
  function KeyOf(table: seq<OptionSpec>, name: string): (k: Option<char>)
    ensures k.Some? <==> exists i :: 0 <= i < |table| && table[i].name == name
    ensures k.Some? ==> exists i :: 0 <= i < |table| && table[i].name == name && table[i].key == k.value
  {
    if table == [] then None
    else if table[0].name == name then Some(table[0].key)
    else
      var k := KeyOf(table[1..], name);
      assert forall i :: 0 < i < |table| ==> table[1..][i - 1] == table[i];
      k
  }

  /** Whether some entry of the table has the short key `c`, so that "-c" is accepted. */
  predicate HasKey(table: seq<OptionSpec>, c: char)
  {
    exists i :: 0 <= i < |table| && table[i].key == c
  }

  /** A command-line token as argp delivers it. */
  datatype Token = Long(name: string, value: string) | Short(c: char, value: string) | Positional(value: string)

  /** The result of argp_parse: the parsed settings, an exit through argp_usage, or an option argp rejects. */
  datatype ParseResult = Parsed(settings: SettingsValue) | UsageExit | InvalidOption

  /** A parse_opt callback. */
  type Step = (SettingsValue, Key, string, nat) -> (SettingsValue, Outcome)

  /** The positional arguments of a command line, in order. */
  function Positionals(tokens: seq<Token>): (p: seq<string>)
    ensures |p| <= |tokens|
  {
    if tokens == [] then []
    else if tokens[0].Positional? then [tokens[0].value] + Positionals(tokens[1..])
    else Positionals(tokens[1..])
  }

  /** The key argp calls parse_opt with for a token, None for an option the table does not have. */
  function TokenKey(table: seq<OptionSpec>, t: Token): (k: Option<Key>)
    ensures k.Some? ==> (k.value == Arg <==> t.Positional?) && (k.value.Opt? || k.value == Arg)
    ensures k.Some? && k.value.Opt? ==> HasKey(table, k.value.c)
  {
    match t
    case Long(name, _) => if KeyOf(table, name).Some? then Some(Opt(KeyOf(table, name).value)) else None
    case Short(c, _) => if HasKey(table, c) then Some(Opt(c)) else None
    case Positional(_) => Some(Arg)
  }

  /** Every option of the command line is in the table. */
  predicate Known(table: seq<OptionSpec>, tokens: seq<Token>)
  {
    forall i :: 0 <= i < |tokens| ==> TokenKey(table, tokens[i]).Some?
  }

  /**
   * argp_parse over `tokens` with the parser `step`, starting from `s` with
   * `argNum` positional arguments already seen. An unknown option, or a key
   * the parser does not recognise, is an error; argp_usage ends the parse.
   */
  function Run(table: seq<OptionSpec>, step: Step, s: SettingsValue, tokens: seq<Token>, argNum: nat): ParseResult
    decreases |tokens|
  {
    if tokens == [] then
      var r := step(s, End, "", argNum);
      if r.1 == Usage then UsageExit else Parsed(r.0)
    else
      match TokenKey(table, tokens[0])
      case None => InvalidOption
      case Some(key) =>
        var r := step(s, key, tokens[0].value, argNum);
        if r.1 == Usage then UsageExit
        else if r.1 == Unknown then InvalidOption
        else Run(table, step, r.0, tokens[1..], if key == Arg then argNum + 1 else argNum)
  }

  /** The positional-argument rules of parse_opt: a third argument, or fewer than two at the end, is a usage error. */
  ghost predicate CountsPositionals(step: Step)
  {
    && (forall s, v, n: nat :: step(s, Arg, v, n).1 == (if n >= NbCliArgs then Usage else Done))
    && (forall s, v, n: nat :: step(s, End, v, n).1 == (if n < NbCliArgs then Usage else Done))
  }

  /** Every key of the table is handled. */
  ghost predicate HandlesTable(table: seq<OptionSpec>, step: Step)
  {
    forall s, c, v, n: nat :: HasKey(table, c) ==> step(s, Opt(c), v, n).1 == Done
  }

  /** What the positional arguments set: only they change the receiver address and ports. */
  ghost predicate SetsTarget(step: Step)
  {
    && (forall s, k, v, n: nat :: k != Arg ==> step(s, k, v, n).0.receiverIp == s.receiverIp)
    && (forall s, k, v, n: nat :: k != Arg ==> step(s, k, v, n).0.receiverPorts == s.receiverPorts)
    && (forall s, v :: step(s, Arg, v, 0).0.receiverIp == v && step(s, Arg, v, 0).0.receiverPorts == s.receiverPorts)
    && (forall s, v :: step(s, Arg, v, 1).0.receiverIp == s.receiverIp && step(s, Arg, v, 1).0.receiverPorts == PortsFrom(Atoi(v)))
  }

  /** No key changes the restart policy. */
  ghost predicate KeepsPolicy(step: Step)
  {
    forall s, k, v, n: nat :: PolicyOf(step(s, k, v, n).0) == PolicyOf(s)
  }

  /** The keys parse_opt recognises (sender/sender.c:494-517). */
  predicate Recognised(c: char)
  {
    c in {ShortVideoSource, ShortAudioSource, ShortBitrate, ShortWidth, ShortHeight, ShortFramerate, ShortNtpPort, ShortNtpIp}
  }

  /** parse_opt counts positional arguments as argp demands. */
  lemma ParseStepCounts()
    ensures CountsPositionals(ParseStep)
  {
  }

  /** parse_opt returns 0 exactly for the recognised option keys. */
  lemma ParseStepHandles(table: seq<OptionSpec>)
    requires forall i :: 0 <= i < |table| ==> Recognised(table[i].key)
    ensures HandlesTable(table, ParseStep)
  {
    forall s, c, v, n: nat | HasKey(table, c)
      ensures ParseStep(s, Opt(c), v, n).1 == Done
    {
      var i :| 0 <= i < |table| && table[i].key == c;
    }
  }

  /** Only the positional arguments set the receiver address, and nothing sets the restart policy. */
  lemma ParseStepTarget()
    ensures SetsTarget(ParseStep) && KeepsPolicy(ParseStep)
  {
    forall s, k, v, n: nat
      ensures PolicyOf(ParseStep(s, k, v, n).0) == PolicyOf(s)
      ensures k != Arg ==> ParseStep(s, k, v, n).0.receiverIp == s.receiverIp
      ensures k != Arg ==> ParseStep(s, k, v, n).0.receiverPorts == s.receiverPorts
    {
      ParseStepKeeps(s, k, v, n);
    }
  }

  /** One parse_opt call keeps the restart policy, and only a positional argument changes the receiver address. */
  lemma ParseStepKeeps(s: SettingsValue, k: Key, v: string, n: nat)
    ensures PolicyOf(ParseStep(s, k, v, n).0) == PolicyOf(s)
    ensures k != Arg ==> ParseStep(s, k, v, n).0.receiverIp == s.receiverIp
    ensures k != Arg ==> ParseStep(s, k, v, n).0.receiverPorts == s.receiverPorts
  {
  }

  /** Any other key, an option parse_opt does not recognise or a special key, gives ARGP_ERR_UNKNOWN and changes nothing. */
  lemma ParseStepUnknown(s: SettingsValue, k: Key, v: string, n: nat)
    requires k == Special || (k.Opt? && !Recognised(k.c))
    ensures ParseStep(s, k, v, n) == (s, Unknown)
  {
  }

  /** parse_opt returns ARGP_ERR_UNKNOWN exactly for the special keys and the options it does not recognise. */
  lemma ParseStepUnknownIff(s: SettingsValue, k: Key, v: string, n: nat)
    ensures ParseStep(s, k, v, n).1 == Unknown <==> k == Special || (k.Opt? && !Recognised(k.c))
  {
  }

  /** parse_opt obeys the three rule sets above, for the table as written and the corrected one. */
  lemma ParseStepRules()
    ensures CountsPositionals(ParseStep) && SetsTarget(ParseStep) && KeepsPolicy(ParseStep)
    ensures HandlesTable(SenderOptions, ParseStep) && HandlesTable(CorrectedSenderOptions, ParseStep)
  {
    ParseStepCounts();
    ParseStepTarget();
    ParseStepHandles(SenderOptions);
    ParseStepHandles(CorrectedSenderOptions);
  }

  /** Run unfolded once, for a token whose key the parser accepts. */
  lemma RunStep(table: seq<OptionSpec>, step: Step, s: SettingsValue, tokens: seq<Token>, argNum: nat)
    requires tokens != [] && TokenKey(table, tokens[0]).Some?
    requires step(s, TokenKey(table, tokens[0]).value, tokens[0].value, argNum).1 == Done
    ensures var r := step(s, TokenKey(table, tokens[0]).value, tokens[0].value, argNum);
      Run(table, step, s, tokens, argNum) == Run(table, step, r.0, tokens[1..], if tokens[0].Positional? then argNum + 1 else argNum)
    ensures Positionals(tokens) == (if tokens[0].Positional? then [tokens[0].value] else []) + Positionals(tokens[1..])
  {
  }

  /** The rest of a command line whose options are known has known options. */
  lemma KnownTail(table: seq<OptionSpec>, tokens: seq<Token>)
    requires tokens != [] && Known(table, tokens)
    ensures TokenKey(table, tokens[0]).Some? && Known(table, tokens[1..])
  {
    assert TokenKey(table, tokens[0]).Some?;
    forall i | 0 <= i < |tokens[1..]|
      ensures TokenKey(table, tokens[1..][i]).Some?
    {
      assert tokens[1..][i] == tokens[i + 1];
    }
  }

  /**
   * A command line whose options are all known parses exactly when it has
   * two positional arguments; otherwise parse_opt calls argp_usage.
   */
  lemma {:induction false} RunCounts(table: seq<OptionSpec>, step: Step, s: SettingsValue, tokens: seq<Token>, argNum: nat)
    requires CountsPositionals(step) && HandlesTable(table, step)
    requires Known(table, tokens) && argNum <= NbCliArgs
    ensures !Run(table, step, s, tokens, argNum).InvalidOption?
    ensures Run(table, step, s, tokens, argNum).UsageExit? <==> argNum + |Positionals(tokens)| != NbCliArgs
    decreases |tokens|
  {
    if tokens != [] {
      KnownTail(table, tokens);
      var key := TokenKey(table, tokens[0]).value;
      var r := step(s, key, tokens[0].value, argNum);
      if key != Arg || argNum < NbCliArgs {
        RunStep(table, step, s, tokens, argNum);
        RunCounts(table, step, r.0, tokens[1..], if key == Arg then argNum + 1 else argNum);
      }
    }
  }

  /**
   * A parsed command line had two positional arguments: the first set the
   * receiver address, the second the six consecutive ports, and the restart
   * policy is what it was.
   */
  lemma {:induction false} RunTarget(table: seq<OptionSpec>, step: Step, s: SettingsValue, tokens: seq<Token>, argNum: nat)
    requires CountsPositionals(step) && SetsTarget(step) && argNum <= NbCliArgs
    ensures Run(table, step, s, tokens, argNum).Parsed? ==>
      var r := Run(table, step, s, tokens, argNum).settings;
      var p := Positionals(tokens);
      && argNum + |p| == NbCliArgs
      && r.receiverIp == (if argNum == 0 then p[0] else s.receiverIp)
      && r.receiverPorts == (if argNum <= 1 then PortsFrom(Atoi(p[1 - argNum])) else s.receiverPorts)
    decreases |tokens|
  {
    if tokens != [] && TokenKey(table, tokens[0]).Some? {
      var t := tokens[0];
      var key := TokenKey(table, t).value;
      var r := step(s, key, t.value, argNum);
      if r.1 == Done {
        RunStep(table, step, s, tokens, argNum);
        if key == Arg {
          RunTarget(table, step, r.0, tokens[1..], argNum + 1);
        } else {
          RunTarget(table, step, r.0, tokens[1..], argNum);
        }
      }
    }
  }

  /** No parse_opt call changes the restart policy, so a parsed command line keeps it. */
  lemma {:induction false} RunPolicy(table: seq<OptionSpec>, step: Step, s: SettingsValue, tokens: seq<Token>, argNum: nat)
    requires KeepsPolicy(step)
    ensures Run(table, step, s, tokens, argNum).Parsed? ==> PolicyOf(Run(table, step, s, tokens, argNum).settings) == PolicyOf(s)
    decreases |tokens|
  {
    if tokens != [] && TokenKey(table, tokens[0]).Some? {
      var key := TokenKey(table, tokens[0]).value;
      var r := step(s, key, tokens[0].value, argNum);
      if r.1 == Done {
        RunStep(table, step, s, tokens, argNum);
        RunPolicy(table, step, r.0, tokens[1..], if key == Arg then argNum + 1 else argNum);
      }
    }
  }

  /** main (sender/sender.c:555-559): the defaults, then argp_parse with the table as written. */
  function ParseCommandLineAsWritten(initial: SettingsValue, tokens: seq<Token>): ParseResult
  {
    Run(SenderOptions, ParseStep, Defaults(initial), tokens, 0)
  }

  /** The same parse with the corrected table. */
  function ParseCommandLine(initial: SettingsValue, tokens: seq<Token>): ParseResult
  {
    Run(CorrectedSenderOptions, ParseStep, Defaults(initial), tokens, 0)
  }

  /**
   * The sender's command line, with the table as written, parses exactly
   * when it names the receiver address and base port, and the result sends
   * to that address on the six ports from that base, restarting after
   * 2000 ms on ERROR and EOS.
   */
  lemma CommandLineSpec(initial: SettingsValue, tokens: seq<Token>)
    requires Known(SenderOptions, tokens)
    ensures !ParseCommandLineAsWritten(initial, tokens).InvalidOption?
    ensures ParseCommandLineAsWritten(initial, tokens).UsageExit? <==> |Positionals(tokens)| != NbCliArgs
    ensures ParseCommandLineAsWritten(initial, tokens).Parsed? ==>
      && ParseCommandLineAsWritten(initial, tokens).settings.receiverIp == Positionals(tokens)[0]
      && ParseCommandLineAsWritten(initial, tokens).settings.receiverPorts == PortsFrom(Atoi(Positionals(tokens)[1]))
      && PolicyOf(ParseCommandLineAsWritten(initial, tokens).settings) == Policy(true, true, 2000)
  {
    ParseStepRules();
    RunCounts(SenderOptions, ParseStep, Defaults(initial), tokens, 0);
    RunTarget(SenderOptions, ParseStep, Defaults(initial), tokens, 0);
    RunPolicy(SenderOptions, ParseStep, Defaults(initial), tokens, 0);
  }

  /** The same three rules with the corrected table. */
  lemma CommandLineSpecCorrected(initial: SettingsValue, tokens: seq<Token>)
    requires Known(CorrectedSenderOptions, tokens)
    ensures !ParseCommandLine(initial, tokens).InvalidOption?
    ensures ParseCommandLine(initial, tokens).UsageExit? <==> |Positionals(tokens)| != NbCliArgs
    ensures ParseCommandLine(initial, tokens).Parsed? ==>
      && ParseCommandLine(initial, tokens).settings.receiverIp == Positionals(tokens)[0]
      && ParseCommandLine(initial, tokens).settings.receiverPorts == PortsFrom(Atoi(Positionals(tokens)[1]))
      && PolicyOf(ParseCommandLine(initial, tokens).settings) == Policy(true, true, 2000)
  {
    ParseStepRules();
    RunCounts(CorrectedSenderOptions, ParseStep, Defaults(initial), tokens, 0);
    RunTarget(CorrectedSenderOptions, ParseStep, Defaults(initial), tokens, 0);
    RunPolicy(CorrectedSenderOptions, ParseStep, Defaults(initial), tokens, 0);
  }

  /** No entry of the table as written carries SHORT_AUDIO_SOURCE: "audiosrc" has the video source's key. */
  lemma NoAudioKey()
    ensures !HasKey(SenderOptions, ShortAudioSource)
    ensures KeyOf(SenderOptions, "audiosrc") == Some(ShortVideoSource)
  {
    assert SenderOptions[0].name != "audiosrc";
  }

  /** Only SHORT_AUDIO_SOURCE sets the audio source. */
  lemma ParseStepAudio(s: SettingsValue, k: Key, v: string, n: nat)
    ensures ParseStep(s, k, v, n).0.audiosource == if k == Opt(ShortAudioSource) then v else s.audiosource
  {
  }

  /** Only SHORT_AUDIO_SOURCE changes the audio source. */
  ghost predicate OnlyAudioKey(step: Step)
  {
    forall s, k, v, n: nat :: k != Opt(ShortAudioSource) ==> step(s, k, v, n).0.audiosource == s.audiosource
  }

  lemma ParseStepOnlyAudioKey()
    ensures OnlyAudioKey(ParseStep)
  {
    forall s, k, v, n: nat
      ensures k != Opt(ShortAudioSource) ==> ParseStep(s, k, v, n).0.audiosource == s.audiosource
    {
      ParseStepAudio(s, k, v, n);
    }
  }

  /**
   * With a table that has no entry for SHORT_AUDIO_SOURCE no command line
   * changes the audio source: after the defaults it stays "audiotestsrc".
   */
  lemma {:induction false} AudioSourceNeverSet(table: seq<OptionSpec>, step: Step, s: SettingsValue, tokens: seq<Token>, argNum: nat)
    requires OnlyAudioKey(step) && !HasKey(table, ShortAudioSource)
    ensures Run(table, step, s, tokens, argNum).Parsed? ==>
      Run(table, step, s, tokens, argNum).settings.audiosource == s.audiosource
    decreases |tokens|
  {
    if tokens != [] && TokenKey(table, tokens[0]).Some? {
      var key := TokenKey(table, tokens[0]).value;
      var r := step(s, key, tokens[0].value, argNum);
      if r.1 == Done {
        RunStep(table, step, s, tokens, argNum);
        AudioSourceNeverSet(table, step, r.0, tokens[1..], if key == Arg then argNum + 1 else argNum);
      }
    }
  }

  /** The sender as written never takes its audio source from the command line. */
  lemma SenderAudioSourceFixed(initial: SettingsValue, tokens: seq<Token>)
    ensures ParseCommandLineAsWritten(initial, tokens).Parsed? ==>
      ParseCommandLineAsWritten(initial, tokens).settings.audiosource == DefaultAudioSource
  {
    NoAudioKey();
    ParseStepOnlyAudioKey();
    AudioSourceNeverSet(SenderOptions, ParseStep, Defaults(initial), tokens, 0);
  }

  /** "--audiosrc NAME RECEIVER_IP RECEIVER_PORT" with the table as written: the video source becomes NAME, the audio source keeps its default. */
  lemma AudiosrcAsWritten(initial: SettingsValue, name: string, ip: string, port: string)
    ensures var r := ParseCommandLineAsWritten(initial, [Long("audiosrc", name), Positional(ip), Positional(port)]);
      r.Parsed? && r.settings.videosource == name && r.settings.audiosource == DefaultAudioSource
  {
    NoAudioKey();
    AudiosrcRun(SenderOptions, ShortVideoSource, initial, name, ip, port);
  }

  /** The same command line with the corrected table sets the audio source and leaves the video source alone. */
  lemma AudiosrcCorrected(initial: SettingsValue, name: string, ip: string, port: string)
    ensures var r := ParseCommandLine(initial, [Long("audiosrc", name), Positional(ip), Positional(port)]);
      r.Parsed? && r.settings.audiosource == name && r.settings.videosource == DefaultVideoSource
  {
    assert CorrectedSenderOptions[0].name != "audiosrc";
    assert KeyOf(CorrectedSenderOptions, "audiosrc") == Some(ShortAudioSource);
    AudiosrcRun(CorrectedSenderOptions, ShortAudioSource, initial, name, ip, port);
  }

  /** "--audiosrc NAME RECEIVER_IP RECEIVER_PORT" after the defaults, when the table maps "audiosrc" to the key `k`. */
  lemma AudiosrcRun(table: seq<OptionSpec>, k: char, initial: SettingsValue, name: string, ip: string, port: string)
    requires KeyOf(table, "audiosrc") == Some(k) && k in {ShortVideoSource, ShortAudioSource}
    ensures var r := Run(table, ParseStep, Defaults(initial), [Long("audiosrc", name), Positional(ip), Positional(port)], 0);
      var s1 := ParseStep(Defaults(initial), Opt(k), name, 0).0;
      && r.Parsed?
      && r.settings.videosource == s1.videosource && r.settings.audiosource == s1.audiosource
      && r.settings.receiverIp == ip && r.settings.receiverPorts == PortsFrom(Atoi(port))
  {
    var tokens := [Long("audiosrc", name), Positional(ip), Positional(port)];
    var s0 := Defaults(initial);
    RunStep(table, ParseStep, s0, tokens, 0);
    assert tokens[1..] == [Positional(ip), Positional(port)];
    TwoPositionalsRun(table, ParseStep(s0, Opt(k), name, 0).0, ip, port);
  }

  /** "RECEIVER_IP RECEIVER_PORT" alone sets the receiver and nothing else the sources depend on. */
  lemma TwoPositionalsRun(table: seq<OptionSpec>, s: SettingsValue, ip: string, port: string)
    ensures var r := Run(table, ParseStep, s, [Positional(ip), Positional(port)], 0);
      && r.Parsed?
      && r.settings.videosource == s.videosource && r.settings.audiosource == s.audiosource
      && r.settings.receiverIp == ip && r.settings.receiverPorts == PortsFrom(Atoi(port))
  {
    var tokens := [Positional(ip), Positional(port)];
    var s1 := s.(receiverIp := ip);
    var s2 := s1.(receiverPorts := PortsFrom(Atoi(port)));
    assert Run(table, ParseStep, s, tokens, 0) == Run(table, ParseStep, s1, [Positional(port)], 1) by {
      RunStep(table, ParseStep, s, tokens, 0);
      assert tokens[1..] == [Positional(port)];
    }
    assert Run(table, ParseStep, s1, [Positional(port)], 1) == Parsed(s2) by {
      RunStep(table, ParseStep, s1, [Positional(port)], 1);
      assert [Positional(port)][1..] == [];
    }
  }

  /** settings_t as the parser and the bus watch update it in place. */
  class Settings {
    var restartOnEos: bool
    var restartOnError: bool
    var restartTimeout: nat
    var clockIp: string
    var clockPort: int
    var receiverIp: string
    const receiverPorts: array<int>
    var videosource: string
    var audiosource: string
    var bitrate: int
    var framerate: int
    var width: int
    var height: int
    var videoId: int
    var audioId: int

    ghost predicate Valid()
      reads this
    {
      receiverPorts.Length == NbPorts
    }

    /** The settings as a value. */
    function Value(): SettingsValue
      reads this, receiverPorts
    {
      SettingsValue(restartOnEos, restartOnError, restartTimeout, clockIp, clockPort, receiverIp, receiverPorts[..],
        videosource, audiosource, bitrate, framerate, width, height, videoId, audioId)
    }

    /** A settings_t on main's stack, before gstreamer_source_get_defaults. */
    constructor ()
      ensures Valid() && fresh(receiverPorts)
    {
      receiverPorts := new int[NbPorts];
    }

    /** The port loops of sender/sender.c:472-473 and 531-532: receiver_ports[ii] = port + ii. */
    method SetPorts(port: int)
      requires Valid()
      modifies receiverPorts
      ensures receiverPorts[..] == PortsFrom(port)
    {
      for ii := 0 to NbPorts
        invariant forall j :: 0 <= j < ii ==> receiverPorts[j] == port + j
      {
        receiverPorts[ii] := port + ii;
      }
    }

    /** gstreamer_source_get_defaults (sender/sender.c:464-482). */
    method GetDefaults()
      requires Valid()
      modifies this, receiverPorts
      ensures Valid() && Value() == Defaults(old(Value()))
    {
      SetDefaultTargets();
      SetPorts(5000);
      SetDefaultMedia();
    }

    /** The restart policy, the receiver address and the NTP server of the defaults (sender/sender.c:466-476). */
    method SetDefaultTargets()
      modifies this`restartOnEos, this`restartOnError, this`restartTimeout, this`receiverIp, this`clockIp, this`clockPort
      ensures restartOnEos && restartOnError && restartTimeout == 2000
      ensures receiverIp == DefaultReceiverIp && clockIp == DefaultClockIp && clockPort == 123
    {
      restartOnEos, restartOnError, restartTimeout := true, true, 2000;
      receiverIp := DefaultReceiverIp;
      clockIp, clockPort := DefaultClockIp, 123;
    }

    /** The sources and video parameters of the defaults (sender/sender.c:477-482). */
    method SetDefaultMedia()
      modifies this`videosource, this`audiosource, this`bitrate, this`framerate, this`width, this`height
      ensures videosource == DefaultVideoSource && audiosource == DefaultAudioSource
      ensures bitrate == 3000 && framerate == 30 && width == 1920 && height == 1080
    {
      videosource, audiosource := DefaultVideoSource, DefaultAudioSource;
      bitrate, framerate, width, height := 3000, 30, 1920, 1080;
    }

    /** parse_opt (sender/sender.c:487-549), in place. */
    method ParseOpt(key: Key, arg: string, argNum: nat) returns (outcome: Outcome)
      requires Valid()
      modifies this, receiverPorts
      ensures Valid() && (Value(), outcome) == ParseStep(old(Value()), key, arg, argNum)
    {
      match key {
        case Opt(c) =>
          outcome := SetOption(c, arg);
        case Arg =>
          outcome := SetPositional(arg, argNum);
        case End =>
          outcome := if argNum < NbCliArgs then Usage else Done;
        case Special =>
          outcome := Unknown;
      }
    }

    /** The option cases of parse_opt (sender/sender.c:494-517). */
    method SetOption(c: char, arg: string) returns (outcome: Outcome)
      modifies this`videosource, this`audiosource, this`bitrate, this`width, this`height, this`framerate, this`clockPort, this`clockIp
      ensures (Value(), outcome) == ParseStep(old(Value()), Opt(c), arg, 0)
    {
      outcome := Done;
      if c == ShortVideoSource {
        videosource := arg;
      } else if c == ShortAudioSource {
        audiosource := arg;
      } else if c == ShortBitrate {
        bitrate := Atoi(arg);
      } else if c == ShortWidth {
        width := Atoi(arg);
      } else if c == ShortHeight {
        height := Atoi(arg);
      } else if c == ShortFramerate {
        framerate := Atoi(arg);
      } else if c == ShortNtpPort {
        clockPort := Atoi(arg);
      } else if c == ShortNtpIp {
        clockIp := arg;
      } else {
        outcome := Unknown;
      }
    }

    /** The ARGP_KEY_ARG case of parse_opt (sender/sender.c:519-538). */
    method SetPositional(arg: string, argNum: nat) returns (outcome: Outcome)
      requires Valid()
      modifies this`receiverIp, receiverPorts
      ensures (Value(), outcome) == ParseStep(old(Value()), Arg, arg, argNum)
    {
      outcome := Done;
      if argNum >= NbCliArgs {
        outcome := Usage;
      } else if argNum == 0 {
        receiverIp := arg;
      } else {
        SetPorts(Atoi(arg));
      }
    }
  }

  /** data_t without its thread, loop and lock: the pipe, the settings and the pending restart timer. */
  class SenderData {
    var pipe: Pipe?
    const settings: Settings
    var timeout: Option<Timer>

    /** gstreamer_source_create (sender/sender.c:430-440). */
    constructor (settings: Settings)
      ensures this.settings == settings && pipe == null && timeout == None
    {
      this.settings := settings;
      pipe := null;
      timeout := None;
    }

    /**
     * bus_callback (sender/sender.c:133-175): ERROR falls through to EOS,
     * which sets the pipe to NULL and schedules a restart when the flag for
     * the message type is set and no restart is pending.
     */
    method BusCallback(msg: Message)
      requires pipe != null
      modifies this, pipe
      ensures pipe == old(pipe) && unchanged(pipe`g, pipe`latency, pipe`calls)
      ensures pipe.state == if Ends(msg.kind) then Null else old(pipe.state)
      ensures timeout == After(old(timeout), React(PolicyOf(settings.Value()), msg.kind, old(timeout)))
    {
      match msg.kind {
        case Error =>
          Restart(msg.kind);
        case Eos =>
          Restart(msg.kind);
        case _ =>
      }
    }

    /** The ERROR/EOS branch (sender/sender.c:149-160). */
    method Restart(kind: MessageType)
      requires pipe != null && Ends(kind)
      modifies this, pipe
      ensures pipe == old(pipe) && unchanged(pipe`g, pipe`latency, pipe`calls)
      ensures pipe.state == Null
      ensures timeout == After(old(timeout), React(PolicyOf(settings.Value()), kind, old(timeout)))
    {
      var _ := pipe.SetPipelineState(Null, true);
      var wants := if kind == Error then settings.restartOnError else settings.restartOnEos;
      if wants && timeout == None {
        timeout := Some(Timer(settings.restartTimeout));
      }
    }

    /** timeout_destroy (sender/sender.c:105-112): the fired timer is destroyed and the field cleared. */
    method TimeoutDestroy()
      requires timeout.Some?
      modifies this
      ensures pipe == old(pipe) && timeout == None
    {
      timeout := None;
    }
  }
}
