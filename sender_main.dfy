/**
 * sender/main.c: the command-line front end of the sender. Its parse_opt is
 * the one of sender/sender.c with two more options, "video-id" ('q') and
 * "audio-id" ('r'), which set the session ids the receiver demultiplexes on.
 * gstreamer_source_get_defaults does not set those ids, so without the
 * options they keep whatever main's settings_t held.
 */
module SenderMain {
  import opened Wrappers
  import opened Ports
  import opened DecimalText
  import opened RestartPolicy
  import opened SenderSettings

  /** SHORT_VIDEO_ID and SHORT_AUDIO_ID (sender/main.c:27-28). */
  const ShortVideoId: char := 'q'
  const ShortAudioId: char := 'r'

  /** parse_opt of sender/main.c:45-116: the two id options, then the cases shared with sender/sender.c. */
  function ParseStepMain(s: SettingsValue, key: Key, arg: string, argNum: nat): (SettingsValue, Outcome)
  {
    if key == Opt(ShortVideoId) then (s.(videoId := Atoi(arg)), Done)
    else if key == Opt(ShortAudioId) then (s.(audioId := Atoi(arg)), Done)
    else ParseStep(s, key, arg, argNum)
  }

  /** The id options, appended to the table (sender/main.c:40-41). */
  const IdOptions: seq<OptionSpec> := [
    OptionSpec("video-id", ShortVideoId, "ID"),
    OptionSpec("audio-id", ShortAudioId, "ID")]

  /** The options table as written (sender/main.c:31-42): "audiosrc" again carries the video source's key. */
  const MainOptions: seq<OptionSpec> := SenderOptions + IdOptions

  /** The table with "audiosrc" registered under SHORT_AUDIO_SOURCE. */
  const CorrectedMainOptions: seq<OptionSpec> := CorrectedSenderOptions + IdOptions

  /** main (sender/main.c:123-125) with the table as written. */
  function ParseCommandLineAsWritten(initial: SettingsValue, tokens: seq<Token>): ParseResult
  {
    Run(MainOptions, ParseStepMain, Defaults(initial), tokens, 0)
  }

  /** The same parse with the corrected table. */
  function ParseCommandLine(initial: SettingsValue, tokens: seq<Token>): ParseResult
  {
    Run(CorrectedMainOptions, ParseStepMain, Defaults(initial), tokens, 0)
  }

  /** The id options set exactly their id; every other key does what sender/sender.c's parse_opt does and keeps both ids. */
  lemma ParseStepMainIds(s: SettingsValue, k: Key, v: string, n: nat)
    ensures k == Opt(ShortVideoId) ==> ParseStepMain(s, k, v, n) == (s.(videoId := Atoi(v)), Done)
    ensures k == Opt(ShortAudioId) ==> ParseStepMain(s, k, v, n) == (s.(audioId := Atoi(v)), Done)
    ensures k != Opt(ShortVideoId) ==> ParseStepMain(s, k, v, n).0.videoId == s.videoId
    ensures k != Opt(ShortAudioId) ==> ParseStepMain(s, k, v, n).0.audioId == s.audioId
    ensures k != Opt(ShortVideoId) && k != Opt(ShortAudioId) ==> ParseStepMain(s, k, v, n) == ParseStep(s, k, v, n)
  {
  }

  /** Any key other than the two ids and the options sender/sender.c recognises gives ARGP_ERR_UNKNOWN and changes nothing. */
  lemma ParseStepMainUnknown(s: SettingsValue, k: Key, v: string, n: nat)
    requires k == Special || (k.Opt? && !Recognised(k.c) && k.c != ShortVideoId && k.c != ShortAudioId)
    ensures ParseStepMain(s, k, v, n) == (s, Unknown)
  {
    ParseStepUnknown(s, k, v, n);
  }

  /** Every key of a table is either an id option or one sender/sender.c recognises. */
  lemma MainStepHandles(table: seq<OptionSpec>)
    requires forall i :: 0 <= i < |table| ==> Recognised(table[i].key) || table[i].key in {ShortVideoId, ShortAudioId}
    ensures HandlesTable(table, ParseStepMain)
  {
    forall s, c, v, n: nat | HasKey(table, c)
      ensures ParseStepMain(s, Opt(c), v, n).1 == Done
    {
      var i :| 0 <= i < |table| && table[i].key == c;
    }
  }

  /** The main.c parser follows the same positional rules, keeps the policy and handles both tables. */
  lemma ParseStepMainRules()
    ensures CountsPositionals(ParseStepMain) && SetsTarget(ParseStepMain) && KeepsPolicy(ParseStepMain)
    ensures OnlyAudioKey(ParseStepMain)
    ensures HandlesTable(MainOptions, ParseStepMain) && HandlesTable(CorrectedMainOptions, ParseStepMain)
  {
    ParseStepRules();
    ParseStepOnlyAudioKey();
    MainStepHandles(MainOptions);
    MainStepHandles(CorrectedMainOptions);
  }

  /**
   * The sender's command line, with the table as written, parses exactly
   * when it has two positional arguments; the result targets that address
   * and the six ports from that base, with the default restart policy.
   */
  lemma CommandLineSpec(initial: SettingsValue, tokens: seq<Token>)
    requires Known(MainOptions, tokens)
    ensures !ParseCommandLineAsWritten(initial, tokens).InvalidOption?
    ensures ParseCommandLineAsWritten(initial, tokens).UsageExit? <==> |Positionals(tokens)| != NbCliArgs
    ensures ParseCommandLineAsWritten(initial, tokens).Parsed? ==>
      && ParseCommandLineAsWritten(initial, tokens).settings.receiverIp == Positionals(tokens)[0]
      && ParseCommandLineAsWritten(initial, tokens).settings.receiverPorts == PortsFrom(Atoi(Positionals(tokens)[1]))
      && PolicyOf(ParseCommandLineAsWritten(initial, tokens).settings) == Policy(true, true, 2000)
  {
    ParseStepMainRules();
    RunCounts(MainOptions, ParseStepMain, Defaults(initial), tokens, 0);
    RunTarget(MainOptions, ParseStepMain, Defaults(initial), tokens, 0);
    RunPolicy(MainOptions, ParseStepMain, Defaults(initial), tokens, 0);
  }

  /** The same three rules with the corrected table. */
  lemma CommandLineSpecCorrected(initial: SettingsValue, tokens: seq<Token>)
    requires Known(CorrectedMainOptions, tokens)
    ensures !ParseCommandLine(initial, tokens).InvalidOption?
    ensures ParseCommandLine(initial, tokens).UsageExit? <==> |Positionals(tokens)| != NbCliArgs
    ensures ParseCommandLine(initial, tokens).Parsed? ==>
      && ParseCommandLine(initial, tokens).settings.receiverIp == Positionals(tokens)[0]
      && ParseCommandLine(initial, tokens).settings.receiverPorts == PortsFrom(Atoi(Positionals(tokens)[1]))
      && PolicyOf(ParseCommandLine(initial, tokens).settings) == Policy(true, true, 2000)
  {
    ParseStepMainRules();
    RunCounts(CorrectedMainOptions, ParseStepMain, Defaults(initial), tokens, 0);
    RunTarget(CorrectedMainOptions, ParseStepMain, Defaults(initial), tokens, 0);
    RunPolicy(CorrectedMainOptions, ParseStepMain, Defaults(initial), tokens, 0);
  }

  /** Whether the command line carries an option with the key `c`. */
  predicate Mentions(table: seq<OptionSpec>, tokens: seq<Token>, c: char)
  {
    exists i :: 0 <= i < |tokens| && TokenKey(table, tokens[i]) == Some(Opt(c))
  }

  /**
   * Without "video-id" the video id is whatever settings_t held before the
   * defaults, which do not set it (likewise the audio id without "audio-id").
   */
  lemma {:induction false} IdsKeptWithoutOption(table: seq<OptionSpec>, s: SettingsValue, tokens: seq<Token>, argNum: nat)
    ensures Run(table, ParseStepMain, s, tokens, argNum).Parsed? && !Mentions(table, tokens, ShortVideoId) ==>
      Run(table, ParseStepMain, s, tokens, argNum).settings.videoId == s.videoId
    ensures Run(table, ParseStepMain, s, tokens, argNum).Parsed? && !Mentions(table, tokens, ShortAudioId) ==>
      Run(table, ParseStepMain, s, tokens, argNum).settings.audioId == s.audioId
    decreases |tokens|
  {
    if tokens != [] && TokenKey(table, tokens[0]).Some? {
      var key := TokenKey(table, tokens[0]).value;
      var r := ParseStepMain(s, key, tokens[0].value, argNum);
      if r.1 == Done {
        RunStep(table, ParseStepMain, s, tokens, argNum);
        ParseStepMainIds(s, key, tokens[0].value, argNum);
        IdsKeptWithoutOption(table, r.0, tokens[1..], if key == Arg then argNum + 1 else argNum);
        forall c | !Mentions(table, tokens, c)
          ensures !Mentions(table, tokens[1..], c) && key != Opt(c)
        {
          assert TokenKey(table, tokens[0]) == Some(key);
        }
      }
    }
  }

  /**
   * "--video-id V --audio-id A" in front of a valid command line without id
   * options sets the ids to atoi(V) and atoi(A), with the table as written.
   */
  lemma IdsFromOptions(initial: SettingsValue, video: string, audio: string, tokens: seq<Token>)
    requires Known(MainOptions, tokens) && |Positionals(tokens)| == NbCliArgs
    requires !Mentions(MainOptions, tokens, ShortVideoId) && !Mentions(MainOptions, tokens, ShortAudioId)
    ensures var r := ParseCommandLineAsWritten(initial, [Long("video-id", video)] + ([Long("audio-id", audio)] + tokens));
      r.Parsed? && r.settings.videoId == Atoi(video) && r.settings.audioId == Atoi(audio)
  {
    IdsRun(MainOptions, initial, video, audio, tokens);
  }

  /** The same with the corrected table. */
  lemma IdsFromOptionsCorrected(initial: SettingsValue, video: string, audio: string, tokens: seq<Token>)
    requires Known(CorrectedMainOptions, tokens) && |Positionals(tokens)| == NbCliArgs
    requires !Mentions(CorrectedMainOptions, tokens, ShortVideoId) && !Mentions(CorrectedMainOptions, tokens, ShortAudioId)
    ensures var r := ParseCommandLine(initial, [Long("video-id", video)] + ([Long("audio-id", audio)] + tokens));
      r.Parsed? && r.settings.videoId == Atoi(video) && r.settings.audioId == Atoi(audio)
  {
    IdsRun(CorrectedMainOptions, initial, video, audio, tokens);
  }

  /** The id options in front of a valid command line, for either table. */
  lemma IdsRun(t: seq<OptionSpec>, initial: SettingsValue, video: string, audio: string, tokens: seq<Token>)
    requires t == MainOptions || t == CorrectedMainOptions
    requires Known(t, tokens) && |Positionals(tokens)| == NbCliArgs
    requires !Mentions(t, tokens, ShortVideoId) && !Mentions(t, tokens, ShortAudioId)
    ensures var r := Run(t, ParseStepMain, Defaults(initial), [Long("video-id", video)] + ([Long("audio-id", audio)] + tokens), 0);
      r.Parsed? && r.settings.videoId == Atoi(video) && r.settings.audioId == Atoi(audio)
  {
    IdKeys(t);
    var s0 := Defaults(initial);
    var s1 := ParseStepMain(s0, Opt(ShortVideoId), video, 0).0;
    var s2 := ParseStepMain(s1, Opt(ShortAudioId), audio, 0).0;
    OptionStep(t, "video-id", ShortVideoId, video, s0, [Long("audio-id", audio)] + tokens, 0);
    OptionStep(t, "audio-id", ShortAudioId, audio, s1, tokens, 0);
    ParseStepMainIds(s0, Opt(ShortVideoId), video, 0);
    ParseStepMainIds(s1, Opt(ShortAudioId), audio, 0);
    ParseStepMainRules();
    RunCounts(t, ParseStepMain, s2, tokens, 0);
    IdsKeptWithoutOption(t, s2, tokens, 0);
  }

  /** An option token whose key parse_opt accepts is consumed by one parse_opt call. */
  lemma OptionStep(table: seq<OptionSpec>, name: string, c: char, v: string, s: SettingsValue, rest: seq<Token>, n: nat)
    requires KeyOf(table, name) == Some(c) && ParseStepMain(s, Opt(c), v, n).1 == Done
    ensures Run(table, ParseStepMain, s, [Long(name, v)] + rest, n) == Run(table, ParseStepMain, ParseStepMain(s, Opt(c), v, n).0, rest, n)
  {
    var tokens := [Long(name, v)] + rest;
    assert tokens[0] == Long(name, v) && tokens[1..] == rest;
    RunStep(table, ParseStepMain, s, tokens, n);
  }

  /** Both tables map the id options to their keys. */
  lemma IdKeys(t: seq<OptionSpec>)
    requires t == MainOptions || t == CorrectedMainOptions
    ensures KeyOf(t, "video-id") == Some(ShortVideoId)
    ensures KeyOf(t, "audio-id") == Some(ShortAudioId)
  {
    assert t[8].name == "video-id" && t[9].name == "audio-id";
    assert forall i :: 0 <= i < 8 ==> t[i].name != "video-id" && t[i].name != "audio-id";
    KeyOfFirst(t, "video-id", 8);
    KeyOfFirst(t, "audio-id", 9);
  }

  /** The key of a name is the key of its first entry. */
  lemma {:induction false} KeyOfFirst(table: seq<OptionSpec>, name: string, i: nat)
    requires i < |table| && table[i].name == name
    requires forall j :: 0 <= j < i ==> table[j].name != name
    ensures KeyOf(table, name) == Some(table[i].key)
    decreases i
  {
    if i > 0 {
      assert table[0].name != name;
      KeyOfFirst(table[1..], name, i - 1);
    }
  }

  /** The table as written gives "audiosrc" the video source's key and has no entry for the audio source. */
  lemma MainAudioSourceFixed(initial: SettingsValue, tokens: seq<Token>)
    ensures KeyOf(MainOptions, "audiosrc") == Some(ShortVideoSource)
    ensures ParseCommandLineAsWritten(initial, tokens).Parsed? ==>
      ParseCommandLineAsWritten(initial, tokens).settings.audiosource == DefaultAudioSource
  {
    assert MainOptions[0].name != "audiosrc";
    assert !HasKey(MainOptions, ShortAudioSource) by {
      assert forall i :: 0 <= i < |MainOptions| ==> MainOptions[i].key != ShortAudioSource;
    }
    ParseStepMainRules();
    AudioSourceNeverSet(MainOptions, ParseStepMain, Defaults(initial), tokens, 0);
  }

  /** With the corrected table "--audiosrc NAME" sets the audio source. */
  lemma MainAudiosrcCorrected(s: SettingsValue, name: string, n: nat)
    ensures KeyOf(CorrectedMainOptions, "audiosrc") == Some(ShortAudioSource)
    ensures ParseStepMain(s, Opt(ShortAudioSource), name, n) == (s.(audiosource := name), Done)
  {
    assert CorrectedMainOptions[0].name != "audiosrc";
  }

  /** parse_opt of sender/main.c:45-116, in place. */
  method ParseOptMain(settings: Settings, key: Key, arg: string, argNum: nat) returns (outcome: Outcome)
    requires settings.Valid()
    modifies settings, settings.receiverPorts
    ensures settings.Valid() && (settings.Value(), outcome) == ParseStepMain(old(settings.Value()), key, arg, argNum)
  {
    if key == Opt(ShortVideoId) {
      settings.videoId := Atoi(arg);
      outcome := Done;
    } else if key == Opt(ShortAudioId) {
      settings.audioId := Atoi(arg);
      outcome := Done;
    } else {
      outcome := settings.ParseOpt(key, arg, argNum);
    }
  }
}
