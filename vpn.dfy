/**
  The system-wide VPN controller: a state that `start` moves from
  Disconnected through Connecting to Connected and `stop` moves from
  Connected through Disconnecting back to Disconnected, with platform steps
  in between that may fail.

  The platform steps (creating the TUN device, routing, the packet
  processor, restoring routing, destroying the device) are inputs: whether
  each one succeeds is a field of `Platform`. In the source every step is a
  placeholder that succeeds on each target the `vpn` feature builds for
  (`SUPPORTED_PLATFORM`); a failing step stands for an implementation that
  can fail.
 */
module Vpn {
  import opened Wire

  datatype VpnState = Disconnected | Connecting | Connected | Disconnecting

  /** `VpnConfig`; the controller only carries it. */
  datatype VpnConfig = VpnConfig(
    deviceName: seq<byte>,
    address: seq<byte>,
    netmask: seq<byte>,
    mtu: u16,
    dnsProtection: bool,
    killSwitch: bool)

  /** `VpnConfig::default`: zks0, 10.0.85.1/255.255.255.0, MTU 1500, both protections on. */
  const DEFAULT_CONFIG: VpnConfig :=
    VpnConfig(Ascii("zks0"), [10, 0, 85, 1], [255, 255, 255, 0], 1500, true, true)

  /** The platform steps `start` and `stop` perform. */
  datatype PlatformStep = CreateTunDevice | ConfigureRouting | StartPacketProcessor | RestoreRouting | DestroyTunDevice

  /** Whether each platform step succeeds. */
  datatype Platform = Platform(
    createTun: bool,
    configureRouting: bool,
    startProcessor: bool,
    restoreRouting: bool,
    destroyTun: bool)

  /** Linux, macOS and Windows, the targets that build: every step is a placeholder that succeeds. */
  const SUPPORTED_PLATFORM: Platform := Platform(true, true, true, true, true)

  datatype VpnError = AlreadyRunning | NotRunning | StepFailed(step: PlatformStep)

  /** `start` as a function of the state: the new state and the result. */
  function StartStep(s: VpnState, p: Platform): (VpnState, Result<(), VpnError>) {
    if s != Disconnected then (s, Err(AlreadyRunning))
    else if !p.createTun then (Connecting, Err(StepFailed(CreateTunDevice)))
    else if !p.configureRouting then (Connecting, Err(StepFailed(ConfigureRouting)))
    else if !p.startProcessor then (Connecting, Err(StepFailed(StartPacketProcessor)))
    else (Connected, Ok(()))
  }

  /** `stop` as a function of the state: the new state and the result. */
  function StopStep(s: VpnState, p: Platform): (VpnState, Result<(), VpnError>) {
    if s != Connected then (s, Err(NotRunning))
    else if !p.restoreRouting then (Disconnecting, Err(StepFailed(RestoreRouting)))
    else if !p.destroyTun then (Disconnecting, Err(StepFailed(DestroyTunDevice)))
    else (Disconnected, Ok(()))
  }

  class VpnController {
    var state: VpnState
    const config: VpnConfig

    /** `VpnController::new`: Disconnected. */
    constructor (config: VpnConfig)
      ensures state == Disconnected && this.config == config
    {
      this.config := config;
      state := Disconnected;
    }

    /** `start`: refuses unless Disconnected; otherwise Connecting, the three steps, then Connected. */
    method Start(p: Platform) returns (r: Result<(), VpnError>)
      modifies this
      ensures (state, r) == StartStep(old(state), p)
    {
      if state != Disconnected {
        return Err(AlreadyRunning);
      }
      state := Connecting;
      if !p.createTun { return Err(StepFailed(CreateTunDevice)); }
      if !p.configureRouting { return Err(StepFailed(ConfigureRouting)); }
      if !p.startProcessor { return Err(StepFailed(StartPacketProcessor)); }
      state := Connected;
      r := Ok(());
    }

    /** `stop`: refuses unless Connected; otherwise Disconnecting, the two steps, then Disconnected. */
    method Stop(p: Platform) returns (r: Result<(), VpnError>)
      modifies this
      ensures (state, r) == StopStep(old(state), p)
    {
      if state != Connected {
        return Err(NotRunning);
      }
      state := Disconnecting;
      if !p.restoreRouting { return Err(StepFailed(RestoreRouting)); }
      if !p.destroyTun { return Err(StepFailed(DestroyTunDevice)); }
      state := Disconnected;
      r := Ok(());
    }

    /** `state`. */
    method State() returns (s: VpnState)
      ensures s == state
    {
      s := state;
    }
  }

  // ---------------------------------------------------------------------
  // Properties
  // ---------------------------------------------------------------------

  /** `start` outside Disconnected errors and changes nothing. */
  lemma StartRefusedUnlessDisconnected(s: VpnState, p: Platform)
    requires s != Disconnected
    ensures StartStep(s, p) == (s, Err(AlreadyRunning))
  {
  }

  /** `start` succeeds exactly when it begins Disconnected and all three steps succeed, and then ends Connected. */
  lemma StartSucceedsIff(s: VpnState, p: Platform)
    ensures StartStep(s, p).1.Ok? <==> s == Disconnected && p.createTun && p.configureRouting && p.startProcessor
    ensures StartStep(s, p).1.Ok? ==> StartStep(s, p).0 == Connected
  {
  }

  /** A failed step of `start` leaves the controller Connecting: nothing resets it. */
  lemma FailedStartLeavesConnecting(p: Platform)
    requires !(p.createTun && p.configureRouting && p.startProcessor)
    ensures StartStep(Disconnected, p).0 == Connecting && StartStep(Disconnected, p).1.Err?
  {
  }

  /** `stop` outside Connected errors and changes nothing. */
  lemma StopRefusedUnlessConnected(s: VpnState, p: Platform)
    requires s != Connected
    ensures StopStep(s, p) == (s, Err(NotRunning))
  {
  }

  /** `stop` succeeds exactly when it begins Connected and both steps succeed, and then ends Disconnected. */
  lemma StopSucceedsIff(s: VpnState, p: Platform)
    ensures StopStep(s, p).1.Ok? <==> s == Connected && p.restoreRouting && p.destroyTun
    ensures StopStep(s, p).1.Ok? ==> StopStep(s, p).0 == Disconnected
    ensures StopStep(s, p).1.Err? && s == Connected ==> StopStep(s, p).0 == Disconnecting
  {
  }

  /** A call of `start` or `stop`, each facing its own platform outcomes. */
  datatype Call = StartCall(p: Platform) | StopCall(p: Platform)

  /** The state after a sequence of calls. */
  function Run(s: VpnState, calls: seq<Call>): VpnState
    decreases |calls|
  {
    if calls == [] then s
    else
      var next := match calls[0]
        case StartCall(p) => StartStep(s, p).0
        case StopCall(p) => StopStep(s, p).0;
      Run(next, calls[1..])
  }

  /** Connecting and Disconnecting are traps: no later `start` or `stop` ever leaves them. */
  lemma {:induction false} IntermediateStatesAreTraps(s: VpnState, calls: seq<Call>)
    requires s == Connecting || s == Disconnecting
    ensures Run(s, calls) == s
    decreases |calls|
  {
    if calls != [] {
      match calls[0] {
        case StartCall(p) => StartRefusedUnlessDisconnected(s, p);
        case StopCall(p) => StopRefusedUnlessConnected(s, p);
      }
      IntermediateStatesAreTraps(s, calls[1..]);
    }
  }

  /** On a platform where every step succeeds, the controller is only ever Disconnected or Connected. */
  lemma {:induction false} SupportedPlatformNeverStuck(s: VpnState, calls: seq<Call>)
    requires s == Disconnected || s == Connected
    requires forall i | 0 <= i < |calls| :: calls[i].p == SUPPORTED_PLATFORM
    ensures Run(s, calls) == Disconnected || Run(s, calls) == Connected
    decreases |calls|
  {
    if calls != [] {
      var next := match calls[0]
        case StartCall(p) => StartStep(s, p).0
        case StopCall(p) => StopStep(s, p).0;
      assert next == Disconnected || next == Connected;
      SupportedPlatformNeverStuck(next, calls[1..]);
    }
  }

  /** On a supported platform, `start` then `stop` returns a new controller to Disconnected. */
  lemma StartThenStop()
    ensures StartStep(Disconnected, SUPPORTED_PLATFORM) == (Connected, Ok(()))
    ensures StopStep(Connected, SUPPORTED_PLATFORM) == (Disconnected, Ok(()))
  {
  }

  /** A `start` whose platform step fails leaves the controller Connecting for good. */
  lemma FailedStartStuck(p: Platform, calls: seq<Call>)
    requires !(p.createTun && p.configureRouting && p.startProcessor)
    ensures Run(Disconnected, [StartCall(p)] + calls) == Connecting
  {
    var all := [StartCall(p)] + calls;
    assert all[1..] == calls;
    FailedStartLeavesConnecting(p);
    IntermediateStatesAreTraps(Connecting, calls);
  }
}

/**
  The controller built without the `vpn` feature: it holds nothing, refuses
  to start or stop, and always reports Disconnected.
 */
module VpnStub {
  import opened Wire

  datatype VpnState = Disconnected

  datatype VpnError = FeatureNotEnabled

  /** The text of the stub's only error. */
  const FEATURE_NOT_ENABLED: seq<byte> := Ascii("VPN feature is not enabled. Rebuild with --features vpn")

  class VpnController {
    /** `VpnController::new`: ignores its arguments. */
    constructor ()
    {
    }

    /** `start`: always the feature-not-enabled error. */
    method Start() returns (r: Result<(), VpnError>)
      ensures r == Err(FeatureNotEnabled)
    {
      r := Err(FeatureNotEnabled);
    }

    /** `stop`: always the feature-not-enabled error. */
    method Stop() returns (r: Result<(), VpnError>)
      ensures r == Err(FeatureNotEnabled)
    {
      r := Err(FeatureNotEnabled);
    }

    /** `state`: always Disconnected. */
    method State() returns (s: VpnState)
      ensures s == Disconnected
    {
      s := Disconnected;
    }
  }
}
