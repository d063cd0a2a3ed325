# ClientOptions of the OpenVPN 3 client, modelled in Dafny

This project models `ClientOptions`, the client-side connection-options
orchestrator of the OpenVPN 3 client library. It turns a loaded profile into
the data that each reconnect attempt needs:

- the shared protocol-session configuration `cp`;
- the transport factory for the currently selected remote (UDP or TCP);
- the tun factory, which is built once;
- the credentials.

It also steps to the next remote with `next()`.

Files:

- `wrappers.dfy`: `Option` and `Result`.
- `collaborators.dfy`: the values the core gets from code outside this model.
  These are the SSL mode, the protocol layer, the autologin flag, the remote
  list with an uninterpreted `get`, the pass-through handles, and the
  `option_error` messages.
- `iteration.dfy`: the 32-bit unsigned `session_iteration` counter and its
  wrap-around.
- `transport.dfy`: the UDP/TCP/error choice of `load_transport_config`.
- `cliopt.dfy`: the `ClientOptions` class, with `ProtoConfig`, `ClientCreds`
  and the `Client::Config` bundle (`SessionConfig`).

The C++ constructor can throw. It is modelled by the static method
`ClientOptions.Create`, which runs the checks in the source's order and
returns either an `OptionError` or a new object. That object is built by the
constructor `Init`, which runs only once every check has passed.

`next()` can throw too. It increments the counter first, so an unknown
protocol leaves the counter advanced and the old transport factory in place.
`Next` returns that error. The ghost field `loaded_iteration` records which
iteration the current transport factory was built for.

`Valid()` is the object invariant. It ties the fields that the constructor
derives from the profile and from the `Config` to those inputs, and ties `cp`
and the tun factory to the frame passed to `Create`. It also says that the
transport factory is the one for `loaded_iteration`. It leaves
`session_iteration` and `creds` free: every counter value and every submitted
credential is allowed.

## Model

| member | source | states |
|---|---|---|
| `ClientOpt.ClientOptions.Create` | openvpn/client/cliopt.hpp:96-186 | A non-client SSL mode fails with "only client configuration supported", before anything else is checked. If that passes, an empty remote list fails with "no remote option specified". If both pass, a layer other than 3 fails with "only layer 3 currently supported", before any transport factory is built. If all three pass, an unknown protocol for the iteration-0 remote fails with "unknown transport protocol". Otherwise the result is a fresh, valid object at iteration 0 with its own fresh `cp`, with no credentials and the transport factory for the iteration-0 remote. |
| `ClientOpt.ClientOptions.Init` | openvpn/client/cliopt.hpp:98-185 | The new object satisfies the invariant and has `session_iteration == 0`. It has a fresh `cp` and null `creds`. Its transport factory is the one for the iteration-0 remote. Its tun factory is built once for the platform. In the tun-builder variant it carries that remote's host as the session name. The Linux, Mac and null variants carry no session name. The poll timeout is the profile's value, or 10 when the profile has none. The locked username is the `USERNAME` argument, or empty when absent. |
| `ClientOpt.ClientOptions.Next` | openvpn/client/cliopt.hpp:188-192 | The counter becomes its successor, wrapping at 2^32. On success the transport factory is the one for the new iteration's remote. On an unknown protocol the result is that error and the old factory stays. The modifies frame allows only the counter and the transport factory to change, so `cp`, `tun_factory`, `creds`, the timeouts and the overrides are unchanged. The invariant is preserved. |
| `ClientOpt.ClientOptions.LoadTransportConfig` | openvpn/client/cliopt.hpp:237-268 | The method resolves the remote for the current iteration with the object's overrides. For a UDP or TCP remote it installs the matching factory and returns the remote's host. Otherwise it returns "unknown transport protocol" and leaves the factory as it was. |
| `Transport.TransportFor` | openvpn/client/cliopt.hpp:244-265 | A UDP protocol yields a UDP config and a TCP protocol yields a TCP config. Every other protocol yields "unknown transport protocol". Either config carries the resolved host and port, the frame, the stats and the socket-protect hook. |
| `SessionIteration.Successor` | openvpn/client/cliopt.hpp:190 | `++session_iteration` adds one below 2^32 - 1 and wraps to 0 at 2^32 - 1. |
| `SessionIteration.AdvanceWraps` | openvpn/client/cliopt.hpp:188-192 | k increments starting from i end at (i + k) mod 2^32. |
| `SessionIteration.AdvanceFromZero` | openvpn/client/cliopt.hpp:98 | k wrapped increments starting from the constructor's 0 give k mod 2^32. `ClientOpt.NextK` uses this to relate k calls of `Next` to the object's counter. |
| `ClientOpt.NextK` | openvpn/client/cliopt.hpp:188-192 | The method calls `Next` k times on an object at iteration 0. Afterwards the object's counter is k mod 2^32 and the invariant still holds. When k > 0 and the remote for iteration k mod 2^32 has a UDP or TCP protocol, the transport factory is the one built for that iteration, as if the object had started there. |
| `ClientOpt.ClientOptions.ClientConfig` | openvpn/client/cliopt.hpp:194-204 | The bundle shares the object's `cp`, whose autologin flag is the profile's. It holds the transport factory of the most recently loaded iteration and the tun factory built at construction. It holds the application's stats and event sinks and the most recently submitted credentials. |
| `ClientOpt.ClientOptions.NeedCreds` | openvpn/client/cliopt.hpp:206-209 | The result is true exactly when the loaded profile does not declare autologin. |
| `ClientOpt.ClientOptions.SubmitCreds` | openvpn/client/cliopt.hpp:211-219 | The stored credentials become the argument, even when it is null. A non-null argument without a username gets the locked username. A non-null argument that has a username keeps it. The password is untouched. The argument object itself is modified, so every alias sees the change. |
| `ClientOpt.InjectedUsername` | openvpn/client/cliopt.hpp:213-216 | A defined username is kept. An empty one becomes the locked username. The result is defined exactly when the submitted or the locked username is. |
| `ClientOpt.ClientOptions.ServerPollTimeout` | openvpn/client/cliopt.hpp:221-224 | The result is 10 seconds when the profile has no `server-poll-timeout`, and that option's value in seconds when it has one. The default comes from line 102 and the option from lines 173-178. |
| `ClientOpt.ClientOptions.ConnTimeout` | openvpn/client/cliopt.hpp:229 | The result is the `conn_timeout` the application configured. |
| `ClientOpt.TunFor` | openvpn/client/cliopt.hpp:150-171 | Each platform gets its own variant: tun builder, Linux, Mac or null. Every variant carries the frame and the stats. Only the tun-builder variant records the session name and the builder hook. The Linux and Mac variants record the layer. |

## Left out

- RNG/PRNG construction, the SSL context, the crypto API and the backend typedefs are left out, because they are calls into crypto libraries. `cc.load`, `cp->load` and `frame_init` are not part of this model: their results (the SSL mode, the layer, the autologin flag and the frame) are inputs to `Create`.
- `cp->remote_adjust(rli)` is not modelled, because its body is not part of this model. In the model `cp` is immutable after construction.
- The internals of `RemoteList` are not part of this model. `get` stays an uninterpreted function of (iteration, server override, protocol override). So the rotation policy "item iteration mod size, with the overrides applied" is not assumed. As a result, this scenario is not proved: with two remotes, UDP first and TCP second, iteration 0 uses the first remote over UDP, one `next()` moves to the second over TCP, and a second `next()` wraps back to the first.
- Errors that collaborators may throw are not modelled. These include `RemoteList` construction, parsing the `server-poll-timeout` value (which is an input here), and a missing argument to `USERNAME`.
- The source of `ClientCreds` is not among the modelled files. The class `ClientOpt.ClientCreds` models only what `submit_creds` uses. Its `username_defined()` is taken to mean "the username is non-empty". The password field exists only to show that it is untouched.
- `update_now()` and `now_` are a clock read. `stats()` and `events()` return references and are pass-through. The external PKI callback only feeds the SSL configuration.
- The `Config` default constructor is not modelled; the application supplies every `Config` field.
- The tun platform is a compile-time choice in the source. Here it is a `TunPlatform` argument of `Create`.
- `client_config()` allocates a new `Client::Config` on each call. The model returns the bundle as a value, so the identity of the returned object is not captured.
