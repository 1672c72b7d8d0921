/**
 * The `POST /session` route of the proxy's API
 * (lib/smart_proxy_remote_execution_ssh/api.rb): the upgrade-header gate,
 * the hijack gate, and the building of the SSH options handed to the relay.
 *
 * Rack's environment, the hijack call and JSON parsing are inputs: the route
 * sees the two header values, whether hijacking is offered, whether it yielded
 * a socket, and the request body already parsed into a hash.
 */
module SessionApi {
  import opened Wrappers

  /** A JSON value as Ruby sees it after parsing; only nil and false are falsy. */
  datatype Value = Nil | Bool(b: bool) | Int(i: int) | Str(s: string) | Compound

  predicate Truthy(v: Value)
  {
    !(v.Nil? || v == Bool(false))
  }

  /** Ruby hash keys: a string key or a symbol key with the same spelling are different keys. */
  datatype Key = StrKey(name: string) | SymKey(name: string)

  type Params = map<Key, Value>

  /** `params[key]`: nil when the key is absent. */
  function Get(params: Params, key: Key): Value
  {
    if key in params then params[key] else Nil
  }

  /** A hash produced by parsing JSON has string keys only. */
  predicate ParsedFromJson(params: Params)
  {
    forall k :: k in params ==> k.StrKey?
  }

  /** What the route learns from Rack's environment. */
  datatype Request = Request(
    connection: Option<string>,   // HTTP_CONNECTION
    upgrade: Option<string>,      // HTTP_UPGRADE
    hijackOffered: bool,          // rack.hijack?
    hijackYieldsSocket: bool,     // rack.hijack_io after the hijack call
    params: Params)               // the parsed body

  /** The keys the route may put in `ssh_options`. */
  datatype OptionKey =
    | Port | Keys | Password | Passphrase | KeysOnly | AuthMethods | VerifyHostKey | NumberOfPasswordPrompts

  datatype OptionValue =
    | Given(value: Value)          // copied from the request parameters
    | KeyFiles(files: seq<string>)
    | Flag(flag: bool)
    | Methods(names: seq<string>)
    | Policy(name: string)
    | Count(count: int)

  type SshOptions = map<OptionKey, OptionValue>

  /** What the route did, in order: hijack the socket, read the body, hand over to the relay. */
  datatype Effect =
    | Hijack
    | ReadBody
    | StartRelay(command: Value, sshUser: Value, hostname: Value, options: SshOptions)

  /** The route's return value (`status` alone when `body` is None) and its effects. */
  datatype Outcome = Outcome(status: int, body: Option<string>, effects: seq<Effect>)

  const UpgradeRequiredMessage: string := "Invalid request: /ssh/session requires connection upgrade to 'raw'"
  const HijackUnavailableMessage: string := "Internal error: request hijacking not available"
  const HostKeyPolicy: string := "accept_new_or_local_tunnel"

  /** The header check: `Connection` must be exactly "upgrade" and `Upgrade` exactly "raw". */
  predicate UpgradeRequested(req: Request)
  {
    req.connection == Some("upgrade") && req.upgrade == Some("raw")
  }

  /**
   * The authentication methods offered to the SSH server: "password" first when a
   * password is given, and "publickey" always, always last.
   */
  method AuthMethodList(params: Params) returns (methods: seq<string>)
    ensures |methods| > 0 && methods[|methods| - 1] == "publickey"
    ensures "password" in methods <==> Truthy(Get(params, StrKey("ssh_password")))
    ensures Truthy(Get(params, StrKey("ssh_password"))) ==> methods == ["password", "publickey"]
    ensures !Truthy(Get(params, StrKey("ssh_password"))) ==> methods == ["publickey"]
  {
    methods := ["publickey"];
    if Truthy(Get(params, StrKey("ssh_password"))) {
      methods := ["password"] + methods;
    }
  }

  /**
   * The `ssh_options` hash. Port, keys and password are set exactly when given;
   * the passphrase is looked up under a symbol key, so for parameters parsed from
   * JSON it is never set. Keys-only, the method list, the host-key policy and one
   * password prompt are always set.
   */
  method BuildSshOptions(params: Params, keyFile: Option<string>) returns (options: SshOptions)
    ensures Port in options <==> Truthy(Get(params, StrKey("ssh_port")))
    ensures Port in options ==> options[Port] == Given(params[StrKey("ssh_port")])
    ensures Keys in options <==> keyFile.Some?
    ensures Keys in options ==> options[Keys] == KeyFiles([keyFile.value])
    ensures Password in options <==> Truthy(Get(params, StrKey("ssh_password")))
    ensures Password in options ==> options[Password] == Given(params[StrKey("ssh_password")])
    ensures Passphrase in options <==> Truthy(Get(params, SymKey("ssh_key_passphrase")))
    ensures Passphrase in options ==> options[Passphrase] == Given(params[SymKey("ssh_key_passphrase")])
    ensures ParsedFromJson(params) ==> Passphrase !in options
    ensures KeysOnly in options && options[KeysOnly] == Flag(true)
    ensures VerifyHostKey in options && options[VerifyHostKey] == Policy(HostKeyPolicy)
    ensures NumberOfPasswordPrompts in options && options[NumberOfPasswordPrompts] == Count(1)
    ensures AuthMethods in options
    ensures options[AuthMethods] ==
      Methods(if Truthy(Get(params, StrKey("ssh_password"))) then ["password", "publickey"] else ["publickey"])
    ensures var names := options[AuthMethods].names;
      && |names| > 0 && names[|names| - 1] == "publickey"
      && ("password" in names <==> Password in options)
  {
    var methods := AuthMethodList(params);
    options := map[];
    if Truthy(Get(params, StrKey("ssh_port"))) {
      options := options[Port := Given(params[StrKey("ssh_port")])];
    }
    if keyFile.Some? {
      options := options[Keys := KeyFiles([keyFile.value])];
    }
    if Truthy(Get(params, StrKey("ssh_password"))) {
      options := options[Password := Given(params[StrKey("ssh_password")])];
    }
    if Truthy(Get(params, SymKey("ssh_key_passphrase"))) {
      options := options[Passphrase := Given(params[SymKey("ssh_key_passphrase")])];
    }
    options := options[KeysOnly := Flag(true)];
    options := options[AuthMethods := Methods(methods)];
    options := options[VerifyHostKey := Policy(HostKeyPolicy)];
    options := options[NumberOfPasswordPrompts := Count(1)];
  }

  /**
   * `POST /session`. Bad upgrade headers give 401 before anything else happens;
   * a missing hijack gives 501 before the body is read; otherwise the body is
   * read, the relay is started with the built options, and the route returns 101.
   */
  method HandleSession(req: Request, keyFile: Option<string>) returns (r: Outcome)
    ensures r.status == 401 || r.status == 501 || r.status == 101
    ensures r.status == 401 <==> !UpgradeRequested(req)
    ensures r.status == 401 ==> r.body == Some(UpgradeRequiredMessage) && r.effects == []
    ensures r.status == 501 <==> UpgradeRequested(req) && !(req.hijackOffered && req.hijackYieldsSocket)
    ensures r.status == 501 ==>
      r.body == Some(HijackUnavailableMessage) && ReadBody !in r.effects
      && r.effects == (if req.hijackOffered then [Hijack] else [])
    ensures r.status == 101 ==>
      && r.body.None? && |r.effects| == 3
      && r.effects[0] == Hijack && r.effects[1] == ReadBody && r.effects[2].StartRelay?
      && r.effects[2].command == Get(req.params, StrKey("command"))
      && r.effects[2].sshUser == Get(req.params, StrKey("ssh_user"))
      && r.effects[2].hostname == Get(req.params, StrKey("hostname"))
      && KeysOnly in r.effects[2].options && AuthMethods in r.effects[2].options
      && (Password in r.effects[2].options <==> Truthy(Get(req.params, StrKey("ssh_password"))))
      && (ParsedFromJson(req.params) ==> Passphrase !in r.effects[2].options)
  {
    if req.connection != Some("upgrade") || req.upgrade != Some("raw") {
      return Outcome(401, Some(UpgradeRequiredMessage), []);
    }
    var effects: seq<Effect> := [];
    var socket := false;
    if req.hijackOffered {
      effects := effects + [Hijack];
      socket := req.hijackYieldsSocket;
    }
    if !socket {
      return Outcome(501, Some(HijackUnavailableMessage), effects);
    }
    effects := effects + [ReadBody];
    var params := req.params;
    var options := BuildSshOptions(params, keyFile);
    effects := effects + [StartRelay(Get(params, StrKey("command")), Get(params, StrKey("ssh_user")),
                                     Get(params, StrKey("hostname")), options)];
    r := Outcome(101, None, effects);
  }
}
