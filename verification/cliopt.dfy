/**
 * ClientOptions: turns a loaded client profile into what each reconnect
 * attempt needs (protocol configuration, transport factory for the current
 * remote, tun factory, credentials), and advances to the next remote on
 * request.
 */
module ClientOpt {
  import opened Wrappers
  import opened Collaborators
  import opened SessionIteration
  import opened Transport

  /** Server poll timeout, in seconds, when the profile sets none. */
  const DefaultServerPollTimeout: uint32 := 10

  /**
   * What the collaborators read out of the option list during construction:
   * the SSL configuration's mode (cc.load), the protocol configuration's layer
   * and autologin flag (cp->load), the remote list, the parsed argument of
   * `server-poll-timeout` and the argument of `USERNAME`, each when present.
   */
  datatype Profile = Profile(
    ssl_mode: SslMode,
    layer: Layer,
    autologin: bool,
    remote_list: RemoteList,
    server_poll_timeout: Option<uint32>,
    username: Option<string>)

  /** The construction-time configuration supplied by the embedding application. */
  datatype Config = Config(
    server_override: string,
    proto_override: Protocol,
    conn_timeout: int32,
    cli_stats: StatsRef,
    cli_events: EventsRef,
    socket_protect: Option<SocketProtectRef>,
    builder: Option<BuilderRef>)

  /** The tun implementation the client was built with. */
  datatype TunPlatform = TunBuilderPlatform | LinuxPlatform | MacPlatform | NullPlatform

  /** A tun client configuration, one variant per platform. */
  datatype TunFactory =
    | TunBuilderConfig(builder: Option<BuilderRef>, session_name: string, frame: FrameRef, stats: StatsRef)
    | TunLinuxConfig(layer: Layer, frame: FrameRef, stats: StatsRef)
    | TunMacConfig(layer: Layer, frame: FrameRef, stats: StatsRef)
    | TunNullConfig(frame: FrameRef, stats: StatsRef)

  datatype Duration = Seconds(seconds: nat)

  /** The tun factory for a platform; only the tun-builder variant records the session name. */
  function TunFor(platform: TunPlatform, builder: Option<BuilderRef>, layer: Layer,
                  session_name: string, frame: FrameRef, stats: StatsRef): (r: TunFactory)
    ensures r.frame == frame && r.stats == stats
    ensures r.TunBuilderConfig? <==> platform == TunBuilderPlatform
    ensures r.TunBuilderConfig? ==> r.session_name == session_name && r.builder == builder
    ensures r.TunLinuxConfig? <==> platform == LinuxPlatform
    ensures r.TunMacConfig? <==> platform == MacPlatform
    ensures r.TunNullConfig? <==> platform == NullPlatform
    ensures r.TunLinuxConfig? || r.TunMacConfig? ==> r.layer == layer
  {
    match platform
    case TunBuilderPlatform => TunBuilderConfig(builder, session_name, frame, stats)
    case LinuxPlatform => TunLinuxConfig(layer, frame, stats)
    case MacPlatform => TunMacConfig(layer, frame, stats)
    case NullPlatform => TunNullConfig(frame, stats)
  }

  /** The remote that the constructor resolves, at iteration 0. */
  function InitialRemote(opt: Profile, config: Config): RemoteItem {
    opt.remote_list.get(0, config.server_override, config.proto_override)
  }

  /** The transport factory that the constructor builds. */
  function InitialTransport(opt: Profile, config: Config, frame: FrameRef): Result<TransportFactory, OptionError> {
    TransportFor(InitialRemote(opt, config), frame, config.cli_stats, config.socket_protect)
  }

  /** The three profile checks of the constructor all pass. */
  predicate Admissible(opt: Profile) {
    opt.ssl_mode.IsClient() && opt.remote_list.size > 0 && opt.layer == OsiLayer3
  }

  /**
   * The username a submitted credential ends up with: the profile-locked
   * username when the credential has none and one is locked, else its own.
   */
  function InjectedUsername(submitted: string, locked: string): (r: string)
    ensures submitted != "" ==> r == submitted
    ensures submitted == "" ==> r == locked
    ensures r != "" <==> submitted != "" || locked != ""
  {
    if submitted == "" && locked != "" then locked else submitted
  }

  /** The protocol-session configuration shared with every session (cp). */
  class ProtoConfig {
    const layer: Layer
    const autologin: bool
    const frame: FrameRef

    constructor (layer: Layer, autologin: bool, frame: FrameRef)
      ensures this.layer == layer && this.autologin == autologin && this.frame == frame
    {
      this.layer := layer;
      this.autologin := autologin;
      this.frame := frame;
    }
  }

  /** User credentials; a username counts as defined when it is non-empty. */
  class ClientCreds {
    var username: string
    var password: string

    constructor (username: string, password: string)
      ensures this.username == username && this.password == password
    {
      this.username := username;
      this.password := password;
    }

    predicate UsernameDefined()
      reads this
    {
      username != ""
    }

    method SetUsername(name: string)
      modifies this
      ensures username == name && password == old(password)
    {
      username := name;
    }
  }

  /** The bundle handed to a protocol session (Client::Config). */
  datatype SessionConfig = SessionConfig(
    proto_context_config: ProtoConfig,
    transport_factory: TransportFactory,
    tun_factory: TunFactory,
    cli_stats: StatsRef,
    cli_events: EventsRef,
    creds: ClientCreds?)

  class ClientOptions {
    /** The profile and configuration it was constructed from (specification only). */
    ghost const profile: Profile
    ghost const config: Config
    ghost const platform: TunPlatform

    var session_iteration: uint32
    /** The iteration whose remote transport_factory was built for; it lags
        session_iteration only after a next() that failed. */
    ghost var loaded_iteration: uint32

    const frame: FrameRef
    const cp: ProtoConfig
    const remote_list: RemoteList
    var transport_factory: TransportFactory
    const tun_factory: TunFactory
    const socket_protect: Option<SocketProtectRef>
    const cli_stats: StatsRef
    const cli_events: EventsRef
    var creds: ClientCreds?
    const server_poll_timeout_: uint32
    const server_override: string
    const proto_override: Protocol
    const conn_timeout_: int32
    const userlocked_username: string

    /** The remote resolved for iteration i with this object's overrides. */
    function Resolve(i: uint32): RemoteItem {
      remote_list.get(i, server_override, proto_override)
    }

    /** The transport factory load_transport_config builds at iteration i. */
    function TransportAt(i: uint32): Result<TransportFactory, OptionError> {
      TransportFor(Resolve(i), frame, cli_stats, socket_protect)
    }

    ghost predicate Valid()
      reads this
    {
      && Admissible(profile)
      && remote_list == profile.remote_list
      && cp.layer == profile.layer
      && cp.autologin == profile.autologin
      && cp.frame == frame
      && server_override == config.server_override
      && proto_override == config.proto_override
      && socket_protect == config.socket_protect
      && cli_stats == config.cli_stats
      && cli_events == config.cli_events
      && conn_timeout_ == config.conn_timeout
      && server_poll_timeout_ == profile.server_poll_timeout.GetOr(DefaultServerPollTimeout)
      && userlocked_username == profile.username.GetOr("")
      && tun_factory == TunFor(platform, config.builder, profile.layer, Resolve(0).server_host, frame, cli_stats)
      && TransportAt(loaded_iteration).Success?
      && transport_factory == TransportAt(loaded_iteration).value
    }

    /** The part of the C++ constructor that runs once every check has passed. */
    constructor Init(opt: Profile, config: Config, frame: FrameRef, platform: TunPlatform)
      requires Admissible(opt)
      requires InitialTransport(opt, config, frame).Success?
      ensures Valid() && fresh(cp)
      ensures profile == opt && this.config == config && this.platform == platform && this.frame == frame
      ensures session_iteration == 0 && loaded_iteration == 0
      ensures transport_factory == InitialTransport(opt, config, frame).value
      ensures tun_factory == TunFor(platform, config.builder, OsiLayer3, InitialRemote(opt, config).server_host,
                                    frame, config.cli_stats)
      ensures creds == null
      ensures server_poll_timeout_ == if opt.server_poll_timeout.Some? then opt.server_poll_timeout.value
                                      else DefaultServerPollTimeout
      ensures userlocked_username == if opt.username.Some? then opt.username.value else ""
    {
      profile := opt;
      this.config := config;
      this.platform := platform;
      session_iteration := 0;
      loaded_iteration := 0;
      socket_protect := config.socket_protect;
      cli_stats := config.cli_stats;
      cli_events := config.cli_events;
      server_override := config.server_override;
      proto_override := config.proto_override;
      conn_timeout_ := config.conn_timeout;
      this.frame := frame;
      cp := new ProtoConfig(opt.layer, opt.autologin, frame);
      remote_list := opt.remote_list;
      var rli := opt.remote_list.get(0, config.server_override, config.proto_override);
      transport_factory := TransportFor(rli, frame, config.cli_stats, config.socket_protect).value;
      tun_factory := TunFor(platform, config.builder, opt.layer, rli.server_host, frame, config.cli_stats);
      server_poll_timeout_ := opt.server_poll_timeout.GetOr(DefaultServerPollTimeout);
      userlocked_username := opt.username.GetOr("");
      creds := null;
    }

    /**
     * The C++ constructor: fails, in this order, on a non-client SSL mode, an
     * empty remote list, a layer other than 3, and an unknown transport
     * protocol for the remote of iteration 0; otherwise yields a new object.
     */
    static method Create(opt: Profile, config: Config, frame: FrameRef, platform: TunPlatform)
      returns (r: Result<ClientOptions, OptionError>)
      ensures !opt.ssl_mode.IsClient() ==> r == Failure(OnlyClientError)
      ensures opt.ssl_mode.IsClient() && opt.remote_list.size == 0 ==> r == Failure(NoRemoteError)
      ensures opt.ssl_mode.IsClient() && opt.remote_list.size > 0 && opt.layer != OsiLayer3
              ==> r == Failure(OnlyLayer3Error)
      ensures Admissible(opt) && InitialTransport(opt, config, frame).Failure?
              ==> r == Failure(UnknownTransportError)
      ensures r.Success? <==> Admissible(opt) && InitialTransport(opt, config, frame).Success?
      ensures r.Success? ==> fresh(r.value) && fresh(r.value.cp) && r.value.Valid()
      ensures r.Success? ==> r.value.profile == opt && r.value.config == config && r.value.platform == platform
      ensures r.Success? ==> r.value.session_iteration == 0 && r.value.creds == null
      ensures r.Success? ==> r.value.transport_factory == InitialTransport(opt, config, frame).value
    {
      if !opt.ssl_mode.IsClient() {
        return Failure(OnlyClientError);
      }
      if opt.remote_list.size == 0 {
        return Failure(NoRemoteError);
      }
      if opt.layer != OsiLayer3 {
        return Failure(OnlyLayer3Error);
      }
      var t := InitialTransport(opt, config, frame);
      if t.Failure? {
        return Failure(t.error);
      }
      var o := new ClientOptions.Init(opt, config, frame, platform);
      r := Success(o);
    }

    /**
     * load_transport_config: resolves the remote of the current iteration and
     * replaces the transport factory with one for it, returning its host; on
     * an unknown protocol fails and leaves the old factory in place.
     */
    method LoadTransportConfig() returns (r: Result<string, OptionError>)
      requires Valid()
      modifies this`transport_factory, this`loaded_iteration
      ensures Valid()
      ensures TransportAt(session_iteration).Success? ==>
                && r == Success(Resolve(session_iteration).server_host)
                && transport_factory == TransportAt(session_iteration).value
                && loaded_iteration == session_iteration
      ensures TransportAt(session_iteration).Failure? ==>
                && r == Failure(UnknownTransportError)
                && transport_factory == old(transport_factory)
                && loaded_iteration == old(loaded_iteration)
    {
      var rli := Resolve(session_iteration);
      var t := TransportFor(rli, frame, cli_stats, socket_protect);
      if t.Success? {
        transport_factory := t.value;
        loaded_iteration := session_iteration;
        r := Success(rli.server_host);
      } else {
        r := Failure(t.error);
      }
    }

    /**
     * next(): advances the iteration counter (wrapping as an unsigned int) and
     * rebuilds the transport factory for the newly resolved remote. Nothing
     * else changes. An unknown protocol leaves the counter advanced and the
     * previous transport factory in place.
     */
    method Next() returns (err: Option<OptionError>)
      requires Valid()
      modifies this`session_iteration, this`transport_factory, this`loaded_iteration
      ensures Valid()
      ensures session_iteration == Successor(old(session_iteration))
      ensures TransportAt(session_iteration).Success? ==>
                && err == None
                && transport_factory == TransportAt(session_iteration).value
                && loaded_iteration == session_iteration
      ensures TransportAt(session_iteration).Failure? ==>
                && err == Some(UnknownTransportError)
                && transport_factory == old(transport_factory)
                && loaded_iteration == old(loaded_iteration)
    {
      session_iteration := Successor(session_iteration);
      var r := LoadTransportConfig();
      err := if r.Failure? then Some(r.error) else None;
    }

    /** client_config(): the bundle a protocol session starts from. */
    function ClientConfig(): (r: SessionConfig)
      reads this
      requires Valid()
      ensures r.proto_context_config == cp && r.proto_context_config.autologin == profile.autologin
      ensures r.transport_factory == TransportAt(loaded_iteration).value
      ensures r.tun_factory == TunFor(platform, config.builder, OsiLayer3, Resolve(0).server_host,
                                      frame, config.cli_stats)
      ensures r.cli_stats == config.cli_stats && r.cli_events == config.cli_events
      ensures r.creds == creds
    {
      SessionConfig(cp, transport_factory, tun_factory, cli_stats, cli_events, creds)
    }

    /** need_creds(): credentials are needed exactly when the profile is not autologin. */
    function NeedCreds(): (r: bool)
      reads this
      requires Valid()
      ensures r <==> !profile.autologin
    {
      !cp.autologin
    }

    /**
     * submit_creds(): stores the given credentials (null included), first
     * giving them the profile-locked username when they carry none.
     */
    method SubmitCreds(creds_arg: ClientCreds?)
      requires Valid()
      modifies this`creds, creds_arg
      ensures Valid()
      ensures creds == creds_arg
      ensures creds_arg != null ==>
                && creds_arg.username == InjectedUsername(old(creds_arg.username), userlocked_username)
                && creds_arg.password == old(creds_arg.password)
    {
      if creds_arg != null && !creds_arg.UsernameDefined() && userlocked_username != "" {
        creds_arg.SetUsername(userlocked_username);
      }
      creds := creds_arg;
    }

    /** server_poll_timeout(): the profile's `server-poll-timeout`, 10 seconds when absent. */
    function ServerPollTimeout(): (d: Duration)
      reads this
      requires Valid()
      ensures profile.server_poll_timeout.None? ==> d == Seconds(10)
      ensures profile.server_poll_timeout.Some? ==> d == Seconds(profile.server_poll_timeout.value as nat)
    {
      Seconds(server_poll_timeout_ as nat)
    }

    /** conn_timeout(): the application's configured connection timeout, unchanged. */
    function ConnTimeout(): (r: int32)
      reads this
      requires Valid()
      ensures r == config.conn_timeout
    {
      conn_timeout_
    }
  }

  /**
   * A driving loop that calls next() k times on a newly constructed object:
   * the counter ends at k modulo 2^32, and unless that iteration's remote has
   * an unknown protocol the transport factory is the one for that iteration,
   * exactly as if the object had been constructed at iteration k.
   */
  method NextK(o: ClientOptions, k: nat)
    requires o.Valid() && o.session_iteration == 0
    modifies o`session_iteration, o`transport_factory, o`loaded_iteration
    ensures o.Valid()
    ensures o.session_iteration as int == k % Modulus
    ensures k > 0 && o.TransportAt((k % Modulus) as uint32).Success? ==>
              o.transport_factory == o.TransportAt((k % Modulus) as uint32).value
  {
    var i := 0;
    while i < k
      invariant 0 <= i <= k
      invariant o.Valid() && o.session_iteration == Advance(0, i)
      invariant i > 0 && o.TransportAt(o.session_iteration).Success? ==>
                  o.transport_factory == o.TransportAt(o.session_iteration).value
    {
      var _ := o.Next();
      i := i + 1;
    }
    AdvanceFromZero(k);
  }
}
