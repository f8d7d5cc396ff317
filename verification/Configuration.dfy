/** Device configuration: src/config.rs, `configuration` of src/protocol.rs, and the update
    operations of src/device.rs. The configuration a caller can read and the receive settings that
    streams follow are committed together, by the same completed operation, or not at all. */
module Configuration {
  import opened Errors
  import opened Numbers
  import opened Converter
  import opened FirmwareProtocol
  import opened SessionStates

  const RFONE_MIN_FREQ_HZ: nat := 24_000_000
  const RFONE_MAX_FREQ_HZ: nat := 1_800_000_000

  datatype RfPort = Rx0 | Rx1 | Rx2

  datatype Config = Config(
    frequencyHz: nat,
    sampleRateHz: nat,
    decimationPolicy: DecimationPolicy,
    rfPort: RfPort,
    gain: GainConfig,
    biasTee: bool,
    packing: bool)

  function PortSelector(port: RfPort): nat {
    match port
    case Rx0 => 0
    case Rx1 => 1
    case Rx2 => 2
  }

  // ---- Validation ----

  function Check(ok: bool): Result<()> {
    if ok then Ok(()) else Err(InvalidConfig)
  }

  function ValidateFrequency(hz: nat): Result<()> {
    Check(RFONE_MIN_FREQ_HZ <= hz <= RFONE_MAX_FREQ_HZ)
  }

  function ValidateSampleRate(hz: nat, format: SampleFormat): Result<()> {
    Check(hz in if format == RawAdc then RFONE_RAW_ADC_SAMPLE_RATES else RFONE_F32_IQ_SAMPLE_RATES)
  }

  function ValidateGain(gain: GainConfig): Result<()> {
    match gain
    case Linearity(v) => Check(v <= MAX_PRESET_GAIN)
    case Sensitivity(v) => Check(v <= MAX_PRESET_GAIN)
    case StageGains(lna, mixer, vga) =>
      if lna.Manual? && lna.value > RFONE_LNA_MAX_GAIN then Err(InvalidConfig)
      else if mixer.Manual? && mixer.value > RFONE_MIXER_MAX_GAIN then Err(InvalidConfig)
      else Check(vga <= RFONE_VGA_MAX_GAIN)
  }

  function Validate(c: Config, format: SampleFormat): Result<()> {
    if ValidateFrequency(c.frequencyHz).Err? then ValidateFrequency(c.frequencyHz)
    else if ValidateSampleRate(c.sampleRateHz, format).Err? then ValidateSampleRate(c.sampleRateHz, format)
    else ValidateGain(c.gain)
  }

  predicate IsValid(c: Config, format: SampleFormat) { Validate(c, format).Ok? }

  /** The `expect` of `configuration` never fires: a validated configuration always has a firmware
      rate, and a decimation that the converter supports. */
  lemma ValidRate(c: Config, format: SampleFormat)
    ensures ValidateSampleRate(c.sampleRateHz, format).Ok? <==>
      SampleRateConfig(format, c.decimationPolicy, c.sampleRateHz).Ok?
    ensures SampleRateConfig(format, c.decimationPolicy, c.sampleRateHz).Ok? ==>
      SupportedDecimation(SampleRateConfig(format, c.decimationPolicy, c.sampleRateHz).value.decimation)
  {
    hide SampleRateConfig;
    if format == RawAdc {
      RawRateSelection(c.decimationPolicy, c.sampleRateHz);
    } else {
      RateSelection(c.decimationPolicy, c.sampleRateHz);
    }
  }

  function RateOf(c: Config, format: SampleFormat): SelectedSampleRate
    requires IsValid(c, format)
  {
    ValidRate(c, format);
    SampleRateConfig(format, c.decimationPolicy, c.sampleRateHz).value
  }

  // ---- The command list of a configuration ----

  /** `configuration`. */
  function Commands(c: Config, format: SampleFormat): seq<Command>
    requires IsValid(c, format)
  {
    [Command(SetFreq, c.frequencyHz), Command(SetSamplerate, RateOf(c, format).param),
     Command(SetRfPort, PortSelector(c.rfPort))]
    + GainConfigPlan(c.gain)
    + [Command(SetPacking, Flag(c.packing)), Command(SetRfBiasCmd, Flag(c.biasTee))]
  }

  function ReceiveOf(c: Config, format: SampleFormat): ReceiveSettings
    requires IsValid(c, format)
  {
    ReceiveSettings(c.packing, RateOf(c, format).decimation)
  }

  /** The value a command list writes to a register, if it writes it. */
  function Written(commands: seq<Command>, r: VendorRequest): (v: Option<nat>)
    ensures v.None? ==> forall i :: 0 <= i < |commands| ==> commands[i].request != r
    decreases |commands|
  {
    if |commands| == 0 then None
    else if commands[|commands| - 1].request == r then Some(commands[|commands| - 1].value)
    else Written(commands[..|commands| - 1], r)
  }

  lemma {:induction false} WrittenAppend(a: seq<Command>, b: seq<Command>, r: VendorRequest)
    ensures Written(a + b, r) == if Written(b, r).Some? then Written(b, r) else Written(a, r)
    decreases |b|
  {
    if |b| == 0 {
      assert a + b == a;
    } else {
      WrittenAppend(a, b[..|b| - 1], r);
      assert (a + b)[..|a + b| - 1] == a + b[..|b| - 1];
    }
  }

  lemma {:induction false} GainOnly(commands: seq<Command>, r: VendorRequest)
    requires forall i :: 0 <= i < |commands| ==> GainRequest(commands[i].request)
    ensures !GainRequest(r) ==> Written(commands, r).None?
    decreases |commands|
  {
    if |commands| > 0 {
      GainOnly(commands[..|commands| - 1], r);
    }
  }

  /** Register by register, what a configuration asks for. */
  function Wanted(c: Config, format: SampleFormat, r: VendorRequest): Option<nat>
    requires IsValid(c, format)
  {
    if GainRequest(r) then Written(GainConfigPlan(c.gain), r)
    else match r
      case SetFreq => Some(c.frequencyHz)
      case SetSamplerate => Some(RateOf(c, format).param)
      case SetRfPort => Some(PortSelector(c.rfPort))
      case SetPacking => Some(Flag(c.packing))
      case SetRfBiasCmd => Some(Flag(c.biasTee))
      case _ => None
  }

  lemma CommandsWrite(c: Config, format: SampleFormat, r: VendorRequest)
    requires IsValid(c, format)
    ensures Written(Commands(c, format), r) == Wanted(c, format, r)
  {
    hide GainConfigPlan, IsValid, RateOf;
    var head := [Command(SetFreq, c.frequencyHz), Command(SetSamplerate, RateOf(c, format).param),
                 Command(SetRfPort, PortSelector(c.rfPort))];
    var gain := GainConfigPlan(c.gain);
    var tail := [Command(SetPacking, Flag(c.packing)), Command(SetRfBiasCmd, Flag(c.biasTee))];
    WrittenAppend(head + gain, tail, r);
    WrittenAppend(head, gain, r);
    GainPlanShape(c.gain);
    GainOnly(gain, r);
    Three(head, r);
    Two(tail, r);
  }

  lemma One(s: seq<Command>, r: VendorRequest)
    requires |s| == 1
    ensures Written(s, r) == if s[0].request == r then Some(s[0].value) else None
  {
    assert s[..0] == [];
  }

  lemma Two(s: seq<Command>, r: VendorRequest)
    requires |s| == 2
    ensures Written(s, r) ==
      if s[1].request == r then Some(s[1].value) else if s[0].request == r then Some(s[0].value) else None
  {
    One(s[..1], r);
  }

  lemma Three(s: seq<Command>, r: VendorRequest)
    requires |s| == 3
    ensures Written(s, r) == if s[2].request == r then Some(s[2].value) else Written(s[..2], r)
    ensures Written(s[..2], r) ==
      if s[1].request == r then Some(s[1].value) else if s[0].request == r then Some(s[0].value) else None
  {
    Two(s[..2], r);
    assert s[..2][0] == s[0] && s[..2][1] == s[1];
  }

  /** The last write to a register is the one that counts. */
  lemma {:induction false} LastWrite(commands: seq<Command>, i: nat)
    requires i < |commands| && forall j :: i < j < |commands| ==> commands[j].request != commands[i].request
    ensures Written(commands, commands[i].request) == Some(commands[i].value)
    decreases |commands|
  {
    if i < |commands| - 1 {
      LastWrite(commands[..|commands| - 1], i);
    }
  }

  lemma {:induction false} NeverWritten(commands: seq<Command>, r: VendorRequest)
    requires forall j :: 0 <= j < |commands| ==> commands[j].request != r
    ensures Written(commands, r) == None
    decreases |commands|
  {
    if |commands| > 0 {
      NeverWritten(commands[..|commands| - 1], r);
    }
  }

  predicate GainIsLegal(gain: GainConfig) {
    match gain
    case Linearity(v) => v <= 21
    case Sensitivity(v) => v <= 21
    case StageGains(lna, mixer, vga) =>
      (lna.Manual? ==> lna.value <= 14) && (mixer.Manual? ==> mixer.value <= 15) && vga <= 15
  }

  /** What one stage of the receiver is set to: automatic gain control on exactly if it is asked for,
      and otherwise off and the gain as given. */
  predicate StageIs(stage: StageGain, agc: Option<nat>, gain: Option<nat>) {
    match stage
    case Manual(value) => agc == Some(0) && gain == Some(value)
    case Agc => agc == Some(1) && gain == None
  }

  lemma StageRegisters(lna: StageGain, mixer: StageGain, vga: nat)
    ensures var plan := StageGainPlan(lna, mixer, vga);
      && StageIs(lna, Written(plan, SetLnaAgc), Written(plan, SetLnaGain))
      && StageIs(mixer, Written(plan, SetMixerAgc), Written(plan, SetMixerGain))
      && Written(plan, SetVgaGain) == Some(vga)
  {
    hide Written;
    var plan := StageGainPlan(lna, mixer, vga);
    var n := if lna.Manual? then 2 else 1;
    LastWrite(plan, 0);
    LastWrite(plan, n);
    LastWrite(plan, |plan| - 1);
    if lna.Manual? { LastWrite(plan, 1); } else { NeverWritten(plan, SetLnaGain); }
    if mixer.Manual? { LastWrite(plan, n + 1); } else { NeverWritten(plan, SetMixerGain); }
  }

  lemma PresetRegisters(value: nat, vga: seq<nat>, mixer: seq<nat>, lna: seq<nat>)
    requires |vga| == |mixer| == |lna| == 22 && value <= 21
    ensures var plan := PresetGainPlan(value, vga, mixer, lna);
      && StageIs(Manual(lna[21 - value]), Written(plan, SetLnaAgc), Written(plan, SetLnaGain))
      && StageIs(Manual(mixer[21 - value]), Written(plan, SetMixerAgc), Written(plan, SetMixerGain))
      && Written(plan, SetVgaGain) == Some(vga[21 - value])
  {
    hide Written;
    var plan := PresetGainPlan(value, vga, mixer, lna);
    LastWrite(plan, 0);
    LastWrite(plan, 1);
    LastWrite(plan, 2);
    LastWrite(plan, 3);
    LastWrite(plan, 4);
  }

  /** What a gain setting leaves in the gain registers. A preset turns automatic gain control off and
      looks its three gains up backwards, so that preset 21 is the first row of the tables. */
  lemma GainRegisters(gain: GainConfig)
    requires GainIsLegal(gain)
    ensures var plan := GainConfigPlan(gain); var row := if gain.StageGains? then 0 else 21 - gain.index;
      var lna := match gain
        case StageGains(lna, _, _) => lna
        case Linearity(_) => Manual(RFONE_LINEARITY_LNA_GAINS[row])
        case Sensitivity(_) => Manual(RFONE_SENSITIVITY_LNA_GAINS[row]);
      var mixer := match gain
        case StageGains(_, mixer, _) => mixer
        case Linearity(_) => Manual(RFONE_LINEARITY_MIXER_GAINS[row])
        case Sensitivity(_) => Manual(RFONE_SENSITIVITY_MIXER_GAINS[row]);
      var vga := match gain
        case StageGains(_, _, vga) => vga
        case Linearity(_) => RFONE_LINEARITY_VGA_GAINS[row]
        case Sensitivity(_) => RFONE_SENSITIVITY_VGA_GAINS[row];
      && StageIs(lna, Written(plan, SetLnaAgc), Written(plan, SetLnaGain))
      && StageIs(mixer, Written(plan, SetMixerAgc), Written(plan, SetMixerGain))
      && Written(plan, SetVgaGain) == Some(vga)
  {
    hide Written, PresetGainPlan, StageGainPlan, StageIs;
    match gain
    case StageGains(lna, mixer, vga) => StageRegisters(lna, mixer, vga);
    case Linearity(v) => PresetRegisters(v, RFONE_LINEARITY_VGA_GAINS, RFONE_LINEARITY_MIXER_GAINS,
        RFONE_LINEARITY_LNA_GAINS);
    case Sensitivity(v) => PresetRegisters(v, RFONE_SENSITIVITY_VGA_GAINS, RFONE_SENSITIVITY_MIXER_GAINS,
        RFONE_SENSITIVITY_LNA_GAINS);
  }

  /** The order that the firmware is given a configuration in: the tuning first, then the gain, with
      automatic gain control settled before the gain of the same stage, and the bias power last. */
  lemma FirmwareOrder(c: Config, format: SampleFormat)
    requires IsValid(c, format)
    ensures var all := Commands(c, format); var n := |all|;
      && n >= 8 && all[0].request == SetFreq && all[1].request == SetSamplerate && all[2].request == SetRfPort
      && (forall i :: 3 <= i < n - 2 ==> GainRequest(all[i].request))
      && all[n - 2].request == SetPacking && all[n - 1].request == SetRfBiasCmd
      && (forall i, j :: 0 <= i < n && 0 <= j < n && all[i].request == SetLnaAgc && all[j].request == SetLnaGain ==>
            i < j)
      && (forall i, j :: 0 <= i < n && 0 <= j < n && all[i].request == SetMixerAgc && all[j].request == SetMixerGain ==>
            i < j)
  {
    hide GainConfigPlan, IsValid, RateOf;
    GainPlanShape(c.gain);
    AgcFirst(c.gain);
  }

  lemma AgcFirst(gain: GainConfig)
    ensures var plan := GainConfigPlan(gain);
      && |plan| >= 3
      && (forall i, j :: 0 <= i < |plan| && 0 <= j < |plan| ==>
            && (plan[i].request == SetLnaAgc && plan[j].request == SetLnaGain ==> i < j)
            && (plan[i].request == SetMixerAgc && plan[j].request == SetMixerGain ==> i < j))
  {
  }

  // ---- Updates ----

  datatype Update =
    | Configure(config: Config)
    | SetFrequencyHz(hz: nat)
    | SetSampleRateHz(rate: nat)
    | SetPort(port: RfPort)
    | SetGain(gain: GainConfig)
    | SetBiasTee(biasTee: bool)
    | SetPackedTransfers(packing: bool)
    | SetDecimationPolicy(policy: DecimationPolicy)

  /** What an update hands to `apply_update`. */
  datatype Proposal = Proposal(
    config: Config,
    commands: seq<Command>,
    receive: Option<ReceiveSettings>,
    validation: Result<()>)

  /** `update_rate`: the rate is chosen before anything is applied. */
  function ProposeRate(c: Config, format: SampleFormat, receive: ReceiveSettings): Proposal {
    match SampleRateConfig(format, c.decimationPolicy, c.sampleRateHz)
    case Err(e) => Proposal(c, [], None, Err(e))
    case Ok(rate) => Proposal(c, [Command(SetSamplerate, rate.param)], Some(receive.(decimation := rate.decimation)),
        Ok(()))
  }

  /** A configuration can only be obtained validated. */
  predicate Legal(u: Update, format: SampleFormat) {
    u.Configure? ==> IsValid(u.config, format)
  }

  function Propose(u: Update, format: SampleFormat, c: Config, receive: ReceiveSettings): Proposal
    requires Legal(u, format)
  {
    match u
    case Configure(config) => Proposal(config, Commands(config, format), Some(ReceiveOf(config, format)), Ok(()))
    case SetFrequencyHz(hz) => Proposal(c.(frequencyHz := hz), [Command(SetFreq, hz)], None, ValidateFrequency(hz))
    case SetSampleRateHz(rate) => ProposeRate(c.(sampleRateHz := rate), format, receive)
    case SetPort(port) => Proposal(c.(rfPort := port), [Command(SetRfPort, PortSelector(port))], None, Ok(()))
    case SetGain(gain) => Proposal(c.(gain := gain), GainConfigPlan(gain), None, ValidateGain(gain))
    case SetBiasTee(on) => Proposal(c.(biasTee := on), [Command(SetRfBiasCmd, Flag(on))], None, Ok(()))
    case SetPackedTransfers(on) =>
      Proposal(c.(packing := on), [Command(SetPacking, Flag(on))], Some(receive.(packing := on)), Ok(()))
    case SetDecimationPolicy(policy) => ProposeRate(c.(decimationPolicy := policy), format, receive)
  }

  function Received(p: Proposal, receive: ReceiveSettings): ReceiveSettings {
    if p.receive.Some? then p.receive.value else receive
  }

  /** An update passes validation exactly if the configuration it proposes is valid; its receive
      settings are then the ones that configuration derives; and its commands write what that
      configuration wants, wherever it differs from the present one. */
  lemma ProposalIsSound(u: Update, format: SampleFormat, c: Config, receive: ReceiveSettings, r: VendorRequest)
    requires Legal(u, format) && IsValid(c, format) && receive == ReceiveOf(c, format)
    ensures var p := Propose(u, format, c, receive);
      && (p.validation.Ok? <==> IsValid(p.config, format))
      && (p.validation.Ok? ==>
            && Received(p, receive) == ReceiveOf(p.config, format)
            && (Written(p.commands, r).Some? ==> Written(p.commands, r) == Wanted(p.config, format, r))
            && (Written(p.commands, r).None? ==>
                  Wanted(p.config, format, r).None? || Wanted(p.config, format, r) == Wanted(c, format, r)))
  {
    hide Propose, Wanted, Written, ReceiveOf;
    ProposalIsValidated(u, format, c, receive);
    if Propose(u, format, c, receive).validation.Ok? {
      ProposalCovers(u, format, c, receive, r);
    }
  }

  lemma ProposalIsValidated(u: Update, format: SampleFormat, c: Config, receive: ReceiveSettings)
    requires Legal(u, format) && IsValid(c, format) && receive == ReceiveOf(c, format)
    ensures var p := Propose(u, format, c, receive);
      && (p.validation.Ok? <==> IsValid(p.config, format))
      && (p.validation.Ok? ==> Received(p, receive) == ReceiveOf(p.config, format))
  {
    hide GainConfigPlan, SampleRateConfig, SupportedDecimation, ValidateGain, Commands;
    ValidRate(c, format);
    ValidRate(Propose(u, format, c, receive).config, format);
  }

  lemma ProposalCovers(u: Update, format: SampleFormat, c: Config, receive: ReceiveSettings, r: VendorRequest)
    requires Legal(u, format) && IsValid(c, format) && receive == ReceiveOf(c, format)
    requires var p := Propose(u, format, c, receive); p.validation.Ok? && IsValid(p.config, format)
    ensures var p := Propose(u, format, c, receive);
      && (Written(p.commands, r).Some? ==> Written(p.commands, r) == Wanted(p.config, format, r))
      && (Written(p.commands, r).None? ==>
            Wanted(p.config, format, r).None? || Wanted(p.config, format, r) == Wanted(c, format, r))
  {
    hide GainConfigPlan, SampleRateConfig, Written, IsValid, Commands;
    var p := Propose(u, format, c, receive);
    match u
    case Configure(config) => CommandsWrite(config, format, r);
    case SetGain(gain) =>
      GainPlanShape(gain);
      GainOnly(GainConfigPlan(gain), r);
    case _ => One(p.commands, r);
  }

  // ---- What an update commits ----

  /** The configuration a caller reads, the receive settings streams follow, and the commands sent. */
  datatype Snapshot = Snapshot(config: Config, receive: ReceiveSettings, log: seq<Command>)

  /** The snapshot is valid, and the receive settings are the ones it derives. */
  predicate Coherent(s: Snapshot, format: SampleFormat) {
    IsValid(s.config, format) && s.receive == ReceiveOf(s.config, format)
  }

  /** The result of an update, and how many of its commands are sent. */
  function EndOf(p: Proposal, open: bool, ends: nat -> Outcome): Attempt<()> {
    if p.validation.Err? then Finished(p.validation)
    else if !open then Finished(Err(DeviceClosed))
    else SequenceEnd(p.commands, ends, 0).1
  }

  function SentOf(p: Proposal, open: bool, ends: nat -> Outcome): (n: nat)
    ensures n <= |p.commands|
  {
    if p.validation.Err? || !open then 0 else SequenceEnd(p.commands, ends, 0).0
  }

  function Committed(s: Snapshot, p: Proposal, open: bool, ends: nat -> Outcome): Snapshot {
    var log := s.log + p.commands[..SentOf(p, open, ends)];
    if EndOf(p, open, ends) == Finished(Ok(())) then Snapshot(p.config, Received(p, s.receive), log) else s.(log := log)
  }

  /** An update succeeds exactly if it is valid, the device is open and all its commands complete;
      then all of them have been sent. Otherwise the last one sent, if any, did not complete. */
  lemma EndIsOk(p: Proposal, open: bool, ends: nat -> Outcome)
    ensures EndOf(p, open, ends) == Finished(Ok(())) <==>
      p.validation.Ok? && open && forall k :: 0 <= k < |p.commands| ==> ends(k) == Completed
    ensures EndOf(p, open, ends) == Finished(Ok(())) ==> SentOf(p, open, ends) == |p.commands|
    ensures EndOf(p, open, ends) != Finished(Ok(())) && p.validation.Ok? && open ==>
      SentOf(p, open, ends) > 0 && ends(SentOf(p, open, ends) - 1) != Completed
  {
    SequenceStops(p.commands, ends, 0);
  }

  /** Commit atomicity of one update: the snapshot and the receive settings stay coherent; they
      change only if it succeeds, and then to what it proposed; an update that is invalid or finds
      the device closed sends nothing. */
  lemma UpdateCommits(u: Update, format: SampleFormat, s: Snapshot, open: bool, ends: nat -> Outcome)
    requires Legal(u, format) && Coherent(s, format)
    ensures var p := Propose(u, format, s.config, s.receive); var t := Committed(s, p, open, ends);
      && Coherent(t, format)
      && (EndOf(p, open, ends) == Finished(Ok(())) ==> t.config == p.config && t.log == s.log + p.commands)
      && (EndOf(p, open, ends) != Finished(Ok(())) ==> t.config == s.config && t.receive == s.receive)
      && (!IsValid(p.config, format) ==> EndOf(p, open, ends) == Finished(Err(InvalidConfig)) && t == s)
      && (!open ==> t == s)
  {
    hide GainConfigPlan, SampleRateConfig, SequenceEnd, Wanted, Written;
    var p := Propose(u, format, s.config, s.receive);
    ProposalIsSound(u, format, s.config, s.receive, SetFreq);
    EndIsOk(p, open, ends);
    RejectedAs(u, format, s.config, s.receive);
    assert p.commands[..|p.commands|] == p.commands;
    assert s.log + p.commands[..0] == s.log;
  }

  lemma RejectedAs(u: Update, format: SampleFormat, c: Config, receive: ReceiveSettings)
    requires Legal(u, format)
    ensures var p := Propose(u, format, c, receive); p.validation.Err? ==> p.validation.error == InvalidConfig
  {
    hide GainConfigPlan, SampleRateConfig;
    var rated := if u.SetSampleRateHz? then c.(sampleRateHz := u.rate)
                 else if u.SetDecimationPolicy? then c.(decimationPolicy := u.policy) else c;
    RateSelection(rated.decimationPolicy, rated.sampleRateHz);
    RawRejection(rated.decimationPolicy, rated.sampleRateHz);
  }

  lemma RawRejection(policy: DecimationPolicy, wanted: nat)
    ensures SampleRateConfig(RawAdc, policy, wanted).Err? ==>
      SampleRateConfig(RawAdc, policy, wanted).error == InvalidConfig
  {
  }

  /** The settings that streams are started and read with are always ones the converter supports. */
  lemma StreamsAreSupported(s: Snapshot, format: SampleFormat)
    requires Coherent(s, format)
    ensures SupportedDecimation(s.receive.decimation) && (format == RawAdc ==> s.receive.decimation == 1)
  {
    hide SupportedDecimation;
    ValidRate(s.config, format);
  }

  // ---- Runs, and what the hardware holds ----

  /** The registers the commands have written, and those of which an update has failed since the
      last time one succeeded. */
  datatype Tuning = Tuning(
    config: Config,
    receive: ReceiveSettings,
    registers: VendorRequest -> Option<nat>,
    stale: set<VendorRequest>)

  /** One update: how its commands end, and whether one that has not completed took effect. */
  datatype Tried = Tried(update: Update, open: bool, ends: nat -> Outcome, took: bool)

  function Requests(commands: seq<Command>): (r: set<VendorRequest>)
    ensures forall i :: 0 <= i < |commands| ==> commands[i].request in r
  {
    set c | c in commands :: c.request
  }

  function Overwritten(registers: VendorRequest -> Option<nat>, commands: seq<Command>)
    : (f: VendorRequest -> Option<nat>)
    ensures forall r :: f(r) == if Written(commands, r).Some? then Written(commands, r) else registers(r)
  {
    r => if Written(commands, r).Some? then Written(commands, r) else registers(r)
  }

  /** The commands of an update that have taken effect. */
  function Effective(p: Proposal, t: Tried): seq<Command> {
    var n := SentOf(p, t.open, t.ends);
    if n == 0 || EndOf(p, t.open, t.ends) == Finished(Ok(())) || t.took then p.commands[..n] else p.commands[..n - 1]
  }

  function Tune(s: Tuning, format: SampleFormat, t: Tried): Tuning
    requires Legal(t.update, format)
  {
    var p := Propose(t.update, format, s.config, s.receive);
    var registers := Overwritten(s.registers, Effective(p, t));
    if EndOf(p, t.open, t.ends) == Finished(Ok(()))
    then Tuning(p.config, Received(p, s.receive), registers, s.stale - Requests(p.commands))
    else s.(registers := registers, stale := s.stale + Requests(p.commands[..SentOf(p, t.open, t.ends)]))
  }

  /** Every register that is not stale holds what the snapshot wants. */
  ghost predicate Tuned(s: Tuning, format: SampleFormat) {
    && IsValid(s.config, format) && s.receive == ReceiveOf(s.config, format)
    && forall r :: r !in s.stale ==> Wanted(s.config, format, r).None? || s.registers(r) == Wanted(s.config, format, r)
  }

  lemma {:induction false} OnlyRequested(commands: seq<Command>, r: VendorRequest)
    ensures Written(commands, r).Some? <==> r in Requests(commands)
    decreases |commands|
  {
    if |commands| > 0 {
      var init := commands[..|commands| - 1];
      OnlyRequested(init, r);
      assert commands == init + [commands[|commands| - 1]];
    }
  }

  lemma TuneKeepsTuned(s: Tuning, format: SampleFormat, t: Tried)
    requires Tuned(s, format) && Legal(t.update, format)
    ensures Tuned(Tune(s, format, t), format)
  {
    hide GainConfigPlan, SampleRateConfig, SequenceEnd, Wanted, Written, Propose, Requests;
    var p := Propose(t.update, format, s.config, s.receive);
    var s' := Tune(s, format, t);
    EndIsOk(p, t.open, t.ends);
    ProposalIsSound(t.update, format, s.config, s.receive, SetFreq);
    forall r | r !in s'.stale
      ensures Wanted(s'.config, format, r).None? || s'.registers(r) == Wanted(s'.config, format, r)
    {
      ProposalIsSound(t.update, format, s.config, s.receive, r);
      OnlyRequested(p.commands, r);
      OnlyRequested(p.commands[..SentOf(p, t.open, t.ends)], r);
      OnlyRequested(Effective(p, t), r);
      assert p.commands[..|p.commands|] == p.commands;
      Fewer(p, t);
    }
  }

  lemma Fewer(p: Proposal, t: Tried)
    ensures Requests(Effective(p, t)) <= Requests(p.commands[..SentOf(p, t.open, t.ends)])
  {
    hide EndOf, SentOf;
  }

  function Tunes(s: Tuning, format: SampleFormat, run: seq<Tried>): Tuning
    requires forall i :: 0 <= i < |run| ==> Legal(run[i].update, format)
    decreases |run|
  {
    if |run| == 0 then s else Tunes(Tune(s, format, run[0]), format, run[1..])
  }

  /** Over every run of updates, succeeding, failing, cancelled or refused: the configuration stays
      valid, the receive settings are always the ones it derives, and every register agrees with it
      unless the last update that touched the register went wrong. */
  lemma {:induction false} SnapshotTracksHardware(s: Tuning, format: SampleFormat, run: seq<Tried>)
    requires forall i :: 0 <= i < |run| ==> Legal(run[i].update, format)
    requires Tuned(s, format)
    ensures Tuned(Tunes(s, format, run), format)
    decreases |run|
  {
    hide Tuned, Tune;
    if |run| > 0 {
      TuneKeepsTuned(s, format, run[0]);
      SnapshotTracksHardware(Tune(s, format, run[0]), format, run[1..]);
    }
  }

  /** After a successful `configure`, from any state, whatever had gone wrong before, every register
      the configuration has a value for holds that value. */
  lemma ConfigureRestores(s: Tuning, format: SampleFormat, t: Tried, r: VendorRequest)
    requires t.update.Configure? && IsValid(t.update.config, format) && t.open
    requires forall k :: 0 <= k < |Commands(t.update.config, format)| ==> t.ends(k) == Completed
    ensures var s' := Tune(s, format, t);
      && s'.config == t.update.config && s'.receive == ReceiveOf(t.update.config, format)
      && (Wanted(s'.config, format, r).Some? ==> r !in s'.stale && s'.registers(r) == Wanted(s'.config, format, r))
  {
    hide GainConfigPlan, SampleRateConfig, SequenceEnd, Wanted, Written, Requests;
    var p := Propose(t.update, format, s.config, s.receive);
    EndIsOk(p, t.open, t.ends);
    CommandsWrite(t.update.config, format, r);
    OnlyRequested(p.commands, r);
    assert p.commands[..|p.commands|] == p.commands;
  }

  // ---- What an update must do ----

  /** An update to `config` and `receive`, whatever the code. An illegal one is refused and one on a
      device that is not open fails, with nothing sent. Otherwise its commands are sent in order up to
      the first that does not complete. It succeeds exactly if it is legal, the device is open and all
      of them complete; then, and only then, anything but the log changes, and all of it at once. */
  ghost predicate Updates(before: Snapshot, after: Snapshot, open: bool, validation: Result<()>, config: Config,
                          receive: ReceiveSettings, commands: seq<Command>, ends: nat -> Outcome, a: Attempt<()>) {
    && (validation.Err? ==> a == Finished(validation) && after == before)
    && (validation.Ok? && !open ==> a == Finished(Err(DeviceClosed)) && after == before)
    && (validation.Ok? && open ==>
          before.log <= after.log && SentInOrder(commands, ends, after.log[|before.log|..], a))
    && (a == Finished(Ok(())) <==>
          validation.Ok? && open && forall k :: 0 <= k < |commands| ==> ends(k) == Completed)
    && (a == Finished(Ok(())) ==> after == Snapshot(config, receive, before.log + commands))
    && (a != Finished(Ok(())) ==> after.config == before.config && after.receive == before.receive)
  }

  /** A firmware rate and a host decimation that yield a sample rate. Of all such pairs the policy
      takes the one with the lowest, or the highest, firmware rate. Raw samples are not decimated. */
  ghost predicate Chosen(format: SampleFormat, policy: DecimationPolicy, rate: nat, param: nat, decimation: nat) {
    if format == RawAdc then param < 3 && [20_000_000, 10_000_000, 5_000_000][param] == rate && decimation == 1
    else
      && Yields(rate, param, decimation)
      && forall i: nat, d: nat :: Yields(rate, i, d) ==> if policy == LowBandwidth then i <= param else param <= i
  }

  predicate Yields(rate: nat, param: nat, decimation: nat) {
    && param < 3 && decimation in [1, 2, 4, 8, 16, 32, 64]
    && [10_000_000, 5_000_000, 2_500_000][param] == rate * decimation
  }

  predicate Published(format: SampleFormat, rate: nat) {
    rate in if format == RawAdc then [20_000_000, 10_000_000, 5_000_000]
            else [10_000_000, 5_000_000, 2_500_000, 1_250_000, 625_000, 312_500, 156_250, 78_125]
  }

  /** An update of the sample rate or of the policy: legal exactly for a published rate. */
  ghost predicate UpdatesRate(before: Snapshot, after: Snapshot, open: bool, format: SampleFormat, config: Config,
                              ends: nat -> Outcome, a: Attempt<()>) {
    if !Published(format, config.sampleRateHz) then a == Finished(Err(InvalidConfig)) && after == before
    else exists param: nat, d: nat ::
      && Chosen(format, config.decimationPolicy, config.sampleRateHz, param, d)
      && Updates(before, after, open, Ok(()), config, before.receive.(decimation := d), [Command(SetSamplerate, param)],
                 ends, a)
  }

  lemma YieldsFeasible(rate: nat, param: nat, decimation: nat)
    requires Yields(rate, param, decimation)
    ensures Feasible(RFONE_FIRMWARE_IQ_SAMPLE_RATES[param], rate)
  {
    hide Feasible;
    FeasibleIs(RFONE_FIRMWARE_IQ_SAMPLE_RATES[param], rate);
    assert decimation in DECIMATION_FACTORS_DESC;
    assert RFONE_FIRMWARE_IQ_SAMPLE_RATES[param] == rate * decimation;
    assert rate == 0 ==> rate * decimation == 0;
  }

  lemma RateIsChosen(format: SampleFormat, policy: DecimationPolicy, rate: nat)
    ensures var s := SampleRateConfig(format, policy, rate);
      && (s.Ok? <==> Published(format, rate)) && (s.Err? ==> s.error == InvalidConfig)
      && (s.Ok? ==> Chosen(format, policy, rate, s.value.param, s.value.decimation))
  {
    hide SampleRateConfig, Feasible;
    if format == RawAdc {
      RawRateSelection(policy, rate);
      RawRejection(policy, rate);
    } else {
      RateSelection(policy, rate);
      forall i: nat, d: nat | Yields(rate, i, d)
        ensures Feasible(RFONE_FIRMWARE_IQ_SAMPLE_RATES[i], rate)
      {
        YieldsFeasible(rate, i, d);
      }
    }
  }

  /** What a whole configuration leaves in every other register, and the receive settings with it. Its
      gain registers are those of its gain setting alone. */
  lemma ConfigurationIs(c: Config, format: SampleFormat)
    requires IsValid(c, format)
    ensures var all, receive := Commands(c, format), ReceiveOf(c, format);
      && Written(all, SetFreq) == Some(c.frequencyHz)
      && Written(all, SetRfPort) == Some(if c.rfPort == Rx0 then 0 else if c.rfPort == Rx1 then 1 else 2)
      && Written(all, SetPacking) == Some(if c.packing then 1 else 0)
      && Written(all, SetRfBiasCmd) == Some(if c.biasTee then 1 else 0)
      && Written(all, SetSamplerate).Some? && receive.packing == c.packing
      && Chosen(format, c.decimationPolicy, c.sampleRateHz, Written(all, SetSamplerate).value, receive.decimation)
      && GainIsLegal(c.gain) && 24_000_000 <= c.frequencyHz <= 1_800_000_000 && Published(format, c.sampleRateHz)
      && forall r :: r == SetLnaGain || r == SetMixerGain || r == SetVgaGain || r == SetLnaAgc || r == SetMixerAgc ==>
           Written(all, r) == Written(GainConfigPlan(c.gain), r)
  {
    hide Written, GainConfigPlan, SampleRateConfig, Commands, Chosen, Published;
    RateIsChosen(format, c.decimationPolicy, c.sampleRateHz);
    ValidRate(c, format);
    CommandsWrite(c, format, SetFreq);
    CommandsWrite(c, format, SetRfPort);
    CommandsWrite(c, format, SetPacking);
    CommandsWrite(c, format, SetRfBiasCmd);
    CommandsWrite(c, format, SetSamplerate);
    forall r | GainRequest(r)
      ensures Written(Commands(c, format), r) == Written(GainConfigPlan(c.gain), r)
    {
      CommandsWrite(c, format, r);
    }
  }

  // ---- The device ----

  class Device {
    const format: SampleFormat
    const session: Session
    var config: Config

    function View(): Snapshot
      reads this, session
    {
      Snapshot(config, session.receive, session.log)
    }

    /** What `open` returns once the first configuration has been applied. */
    constructor (format: SampleFormat, session: Session, config: Config)
      requires Coherent(Snapshot(config, session.receive, session.log), format)
      ensures this.format == format && this.session == session && this.config == config && Coherent(View(), format)
    {
      this.format := format;
      this.session := session;
      this.config := config;
    }

    /** An update has ended with result `a`: on success it has committed exactly what it proposes, and
        otherwise nothing; it has sent its commands up to the first that did not complete; and
        the snapshot and the receive settings are coherent. */
    predicate CommitsOrNothing(u: Update, before: Snapshot, after: Snapshot, ends: nat -> Outcome, a: Attempt<()>)
      requires Legal(u, format)
      reads session`state
    {
      var p := Propose(u, format, before.config, before.receive);
      && Coherent(after, format)
      && a == EndOf(p, session.state.device == Open, ends)
      && after == Committed(before, p, session.state.device == Open, ends)
    }

    /** `apply_update`. */
    method ApplyUpdate(p: Proposal, ends: nat -> Outcome) returns (a: Attempt<()>)
      modifies this`config, session`receive, session`log
      ensures a == EndOf(p, session.state.device == Open, ends)
      ensures View() == Committed(old(View()), p, session.state.device == Open, ends)
      ensures Updates(old(View()), View(), session.state.device == Open, p.validation, p.config,
                      Received(p, old(session.receive)), p.commands, ends, a)
    {
      hide SequenceEnd, SentInOrder;
      SequenceIsOrdered(p.commands, ends);
      EndIsOk(p, session.state.device == Open, ends);
      if p.validation.Err? {
        return Finished(p.validation);
      }
      a := session.Apply(p.commands, p.receive, ends);
      if a != Finished(Ok(())) {
        return;
      }
      config := p.config;
    }

    method SetFrequencyHz(hz: nat, ends: nat -> Outcome) returns (a: Attempt<()>)
      requires Coherent(View(), format)
      modifies this`config, session`receive, session`log
      ensures CommitsOrNothing(Update.SetFrequencyHz(hz), old(View()), View(), ends, a)
      ensures Updates(old(View()), View(), session.state.device == Open,
                      if 24_000_000 <= hz <= 1_800_000_000 then Ok(()) else Err(InvalidConfig),
                      old(config).(frequencyHz := hz), old(session.receive), [Command(SetFreq, hz)], ends, a)
    {
      hide GainConfigPlan, SampleRateConfig, Committed, EndOf, Coherent, Updates;
      UpdateCommits(Update.SetFrequencyHz(hz), format, View(), session.state.device == Open, ends);
      a := ApplyUpdate(Proposal(config.(frequencyHz := hz), [Command(SetFreq, hz)], None, ValidateFrequency(hz)), ends);
    }

    method SetPort(port: RfPort, ends: nat -> Outcome) returns (a: Attempt<()>)
      requires Coherent(View(), format)
      modifies this`config, session`receive, session`log
      ensures CommitsOrNothing(Update.SetPort(port), old(View()), View(), ends, a)
      ensures Updates(old(View()), View(), session.state.device == Open,
                      Ok(()),
                      old(config).(rfPort := port), old(session.receive),
                      [Command(SetRfPort, if port == Rx0 then 0 else if port == Rx1 then 1 else 2)], ends, a)
    {
      hide GainConfigPlan, SampleRateConfig, Committed, EndOf, Coherent, Updates;
      UpdateCommits(Update.SetPort(port), format, View(), session.state.device == Open, ends);
      a := ApplyUpdate(Proposal(config.(rfPort := port), [Command(SetRfPort, PortSelector(port))], None, Ok(())), ends);
    }

    method SetGain(gain: GainConfig, ends: nat -> Outcome) returns (a: Attempt<()>)
      requires Coherent(View(), format)
      modifies this`config, session`receive, session`log
      ensures CommitsOrNothing(Update.SetGain(gain), old(View()), View(), ends, a)
      ensures Updates(old(View()), View(), session.state.device == Open,
                      if GainIsLegal(gain) then Ok(()) else Err(InvalidConfig),
                      old(config).(gain := gain), old(session.receive), GainConfigPlan(gain), ends, a)
    {
      hide GainConfigPlan, SampleRateConfig, Committed, EndOf, Coherent, Updates;
      UpdateCommits(Update.SetGain(gain), format, View(), session.state.device == Open, ends);
      a := ApplyUpdate(Proposal(config.(gain := gain), GainConfigPlan(gain), None, ValidateGain(gain)), ends);
    }

    method SetBiasTee(enabled: bool, ends: nat -> Outcome) returns (a: Attempt<()>)
      requires Coherent(View(), format)
      modifies this`config, session`receive, session`log
      ensures CommitsOrNothing(Update.SetBiasTee(enabled), old(View()), View(), ends, a)
      ensures Updates(old(View()), View(), session.state.device == Open,
                      Ok(()),
                      old(config).(biasTee := enabled), old(session.receive),
                      [Command(SetRfBiasCmd, if enabled then 1 else 0)], ends, a)
    {
      hide GainConfigPlan, SampleRateConfig, Committed, EndOf, Coherent, Updates;
      UpdateCommits(Update.SetBiasTee(enabled), format, View(), session.state.device == Open, ends);
      var p := Proposal(config.(biasTee := enabled), [Command(SetRfBiasCmd, Flag(enabled))], None, Ok(()));
      a := ApplyUpdate(p, ends);
    }

    /** For raw samples only. The decimation that streams follow is left as it is. */
    method SetPackedTransfers(enabled: bool, ends: nat -> Outcome) returns (a: Attempt<()>)
      requires Coherent(View(), format) && format == RawAdc
      modifies this`config, session`receive, session`log
      ensures CommitsOrNothing(Update.SetPackedTransfers(enabled), old(View()), View(), ends, a)
      ensures Updates(old(View()), View(), session.state.device == Open,
                      Ok(()),
                      old(config).(packing := enabled), old(session.receive).(packing := enabled),
                      [Command(SetPacking, if enabled then 1 else 0)], ends, a)
    {
      hide GainConfigPlan, SampleRateConfig, Committed, EndOf, Coherent, Updates;
      UpdateCommits(Update.SetPackedTransfers(enabled), format, View(), session.state.device == Open, ends);
      var receive := session.receive.(packing := enabled);
      var p := Proposal(config.(packing := enabled), [Command(SetPacking, Flag(enabled))], Some(receive), Ok(()));
      a := ApplyUpdate(p, ends);
    }

    /** `configure`. */
    method ConfigureAll(proposed: Config, ends: nat -> Outcome) returns (a: Attempt<()>)
      requires Coherent(View(), format) && IsValid(proposed, format)
      modifies this`config, session`receive, session`log
      ensures CommitsOrNothing(Configure(proposed), old(View()), View(), ends, a)
      ensures Updates(old(View()), View(), session.state.device == Open,
                      Ok(()),
                      proposed, ReceiveOf(proposed, format), Commands(proposed, format), ends, a)
    {
      hide GainConfigPlan, SampleRateConfig, Committed, EndOf, Coherent, Updates;
      UpdateCommits(Configure(proposed), format, View(), session.state.device == Open, ends);
      a := ApplyUpdate(Proposal(proposed, Commands(proposed, format), Some(ReceiveOf(proposed, format)), Ok(())), ends);
    }

    /** `update_rate`. */
    method UpdateRate(proposed: Config, ends: nat -> Outcome) returns (a: Attempt<()>)
      modifies this`config, session`receive, session`log
      ensures var p := ProposeRate(proposed, format, old(session.receive));
        && a == EndOf(p, session.state.device == Open, ends)
        && View() == Committed(old(View()), p, session.state.device == Open, ends)
      ensures UpdatesRate(old(View()), View(), session.state.device == Open, format, proposed, ends, a)
    {
      hide SampleRateConfig, SequenceEnd, Chosen, Published, Updates;
      RateIsChosen(format, proposed.decimationPolicy, proposed.sampleRateHz);
      var rate := SampleRateConfig(format, proposed.decimationPolicy, proposed.sampleRateHz);
      if rate.Err? {
        return Finished(Err(rate.error));
      }
      var receive := session.receive.(decimation := rate.value.decimation);
      a := ApplyUpdate(Proposal(proposed, [Command(SetSamplerate, rate.value.param)], Some(receive), Ok(())), ends);
    }

    method SetSampleRateHz(rate: nat, ends: nat -> Outcome) returns (a: Attempt<()>)
      requires Coherent(View(), format)
      modifies this`config, session`receive, session`log
      ensures CommitsOrNothing(Update.SetSampleRateHz(rate), old(View()), View(), ends, a)
      ensures UpdatesRate(old(View()), View(), session.state.device == Open, format,
                          old(config).(sampleRateHz := rate), ends, a)
    {
      hide GainConfigPlan, SampleRateConfig, Committed, EndOf, Coherent, Updates;
      UpdateCommits(Update.SetSampleRateHz(rate), format, View(), session.state.device == Open, ends);
      a := UpdateRate(config.(sampleRateHz := rate), ends);
    }

    /** For converted samples only. */
    method SetDecimationPolicy(policy: DecimationPolicy, ends: nat -> Outcome) returns (a: Attempt<()>)
      requires Coherent(View(), format) && format == F32Iq
      modifies this`config, session`receive, session`log
      ensures CommitsOrNothing(Update.SetDecimationPolicy(policy), old(View()), View(), ends, a)
      ensures UpdatesRate(old(View()), View(), session.state.device == Open, format,
                          old(config).(decimationPolicy := policy), ends, a)
    {
      hide GainConfigPlan, SampleRateConfig, Committed, EndOf, Coherent, Updates;
      UpdateCommits(Update.SetDecimationPolicy(policy), format, View(), session.state.device == Open, ends);
      a := UpdateRate(config.(decimationPolicy := policy), ends);
    }
  }
}
