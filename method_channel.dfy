/**
 * The `voip_engine` method channel: a dispatch from a method name and its
 * string arguments to at most one engine command and the reply sent back to
 * Flutter. The engine's answer to the command is a parameter.
 */
module MethodChannel {
  import opened Wrappers
  import opened Text
  import Pjsip

  /** The engine command a method call issues. */
  datatype EngineCommand =
    | Initialize
    | Register(username: string, password: string, domain: string, proxy: string)
    | Unregister
    | StartCall(callee: string)
    | AcceptCall(callId: string)
    | EndCall(callId: string)

  /**
   * What the engine call did: returned (with its boolean, if any), threw an
   * `Exception` (the handler's catch clauses take it), or threw a
   * `java.lang.Error` such as `UnsatisfiedLinkError`, which neither catch
   * clause takes, so it leaves `onMethodCall`.
   */
  datatype EngineOutcome =
    | Returned(ok: bool)
    | Raised(illegalArgument: bool, message: Option<string>)
    | Escaped

  /** The reply on the channel; `NoReply` when an escaping `Error` ended the handler before any reply. */
  datatype Reply = Success | Error(code: string, message: Option<string>) | NotImplemented | NoReply

  /** One dispatch: the command issued, if any, and the reply. */
  datatype Dispatch = Dispatch(command: Option<EngineCommand>, reply: Reply)

  /** The SIP credentials held by provisioning, as its getters return them. */
  datatype Provisioned = Provisioned(username: Option<string>, password: Option<string>, domain: Option<string>, proxy: Option<string>)

  /** `requireArgument`: the argument, or the `IllegalArgumentException` naming the key. */
  function RequireArgument(args: map<string, string>, key: string): (r: Result<string>)
    ensures r.Ok? <==> key in args
    ensures r.Ok? ==> r.value == args[key]
    ensures r.Err? ==> r.message == "Missing required argument: " + key
  {
    if key in args then Ok(args[key]) else Err("Missing required argument: " + key)
  }

  /** A required argument or the message of the exception its absence raises. */
  datatype Result<T> = Ok(value: T) | Err(message: string)

  /** The `ARGUMENT` reply for a missing required argument. */
  function MissingArgument(key: string): Reply {
    Error("ARGUMENT", Some("Missing required argument: " + key))
  }

  /** The catch clauses: `IllegalArgumentException` is `ARGUMENT`, anything else `ERROR`. */
  function Caught(illegalArgument: bool, message: Option<string>): Reply {
    if illegalArgument then Error("ARGUMENT", message) else Error("ERROR", Some(message.GetOr("Unknown error")))
  }

  /** Issue `c`; a throw replaces the reply `onReturn` would have given, and an escaping `Error` leaves none. */
  function Issue(c: EngineCommand, outcome: EngineOutcome, onReturn: Reply): Dispatch {
    match outcome
    case Raised(ia, msg) => Dispatch(Some(c), Caught(ia, msg))
    case Escaped => Dispatch(Some(c), NoReply)
    case Returned(_) => Dispatch(Some(c), onReturn)
  }

  /** A command whose one required argument is `key`. */
  function WithArgument(args: map<string, string>, key: string, command: string -> EngineCommand,
                        outcome: EngineOutcome, onReturn: Reply): Dispatch {
    match RequireArgument(args, key)
    case Err(_) => Dispatch(None, MissingArgument(key))
    case Ok(v) => Issue(command(v), outcome, onReturn)
  }

  /** `onMethodCall`. */
  function OnMethodCall(name: string, args: map<string, string>, provisioned: Provisioned, outcome: EngineOutcome): Dispatch {
    if name == "init" then Issue(Initialize, outcome, Success)
    else if name == "register" then
      if "username" !in args then Dispatch(None, MissingArgument("username"))
      else if "password" !in args then Dispatch(None, MissingArgument("password"))
      else if "domain" !in args then Dispatch(None, MissingArgument("domain"))
      else
        var proxy := if "proxy" in args then args["proxy"] else "";
        Issue(Register(args["username"], args["password"], args["domain"], proxy), outcome, Success)
    else if name == "registerProvisioned" then
      if IsNullOrBlank(provisioned.username) || IsNullOrBlank(provisioned.password) || IsNullOrBlank(provisioned.domain)
      then Dispatch(None, Error("PROVISIONING", Some("Missing SIP provisioning data")))
      else
        Issue(Register(provisioned.username.value, provisioned.password.value, provisioned.domain.value,
                       provisioned.proxy.GetOr("")), outcome, Success)
    else if name == "unregister" then Issue(Unregister, outcome, Success)
    else if name == "makeCall" then
      var onReturn := if outcome == Returned(false) then Error("CALL", Some("Native makeCall failed")) else Success;
      WithArgument(args, "callee", c => StartCall(c), outcome, onReturn)
    else if name == "acceptCall" then WithArgument(args, "callId", c => AcceptCall(c), outcome, Success)
    else if name == "hangupCall" then WithArgument(args, "callId", c => EndCall(c), outcome, Success)
    else Dispatch(None, NotImplemented)
  }

  /** The methods the channel knows. */
  predicate Known(name: string) {
    name in {"init", "register", "registerProvisioned", "unregister", "makeCall", "acceptCall", "hangupCall"}
  }

  /** The argument keys a method requires. */
  function Required(name: string): seq<string> {
    if name == "register" then ["username", "password", "domain"]
    else if name == "makeCall" then ["callee"]
    else if name in {"acceptCall", "hangupCall"} then ["callId"]
    else []
  }

  /** The first required argument missing from `args`, if any. */
  function FirstMissing(keys: seq<string>, args: map<string, string>): (r: Option<string>)
    ensures r.None? <==> forall i :: 0 <= i < |keys| ==> keys[i] in args
    ensures r.Some? ==> r.value !in args && exists i :: 0 <= i < |keys| && keys[i] == r.value
  {
    if keys == [] then None
    else if keys[0] !in args then Some(keys[0])
    else FirstMissing(keys[1..], args)
  }

  /**
   * A missing required argument yields `ARGUMENT` naming the first missing
   * key, in the order the method reads them, and no engine command.
   */
  lemma MissingArgumentIssuesNothing(name: string, args: map<string, string>, provisioned: Provisioned, outcome: EngineOutcome)
    requires FirstMissing(Required(name), args).Some?
    ensures OnMethodCall(name, args, provisioned, outcome)
      == Dispatch(None, MissingArgument(FirstMissing(Required(name), args).value))
  {
  }

  /**
   * An engine command is issued exactly when the method is known, all its
   * required arguments are present, and (for `registerProvisioned`) the three
   * credentials are non-blank.
   */
  lemma CommandIssuedIff(name: string, args: map<string, string>, provisioned: Provisioned, outcome: EngineOutcome)
    ensures OnMethodCall(name, args, provisioned, outcome).command.Some? <==>
      && Known(name)
      && FirstMissing(Required(name), args).None?
      && (name == "registerProvisioned" ==>
            !IsNullOrBlank(provisioned.username) && !IsNullOrBlank(provisioned.password) && !IsNullOrBlank(provisioned.domain))
  {
    var keys := Required(name);
    if name == "register" {
      assert keys[0] == "username" && keys[1] == "password" && keys[2] == "domain";
    } else if name in {"makeCall", "acceptCall", "hangupCall"} {
      assert keys[0] == (if name == "makeCall" then "callee" else "callId");
    }
  }

  /** `register` passes the three credentials unchanged and defaults the proxy to `""`. */
  lemma RegisterArguments(args: map<string, string>, provisioned: Provisioned, outcome: EngineOutcome)
    requires "username" in args && "password" in args && "domain" in args
    ensures OnMethodCall("register", args, provisioned, outcome).command
      == Some(Register(args["username"], args["password"], args["domain"], if "proxy" in args then args["proxy"] else ""))
    ensures outcome.Returned? ==> OnMethodCall("register", args, provisioned, outcome).reply == Success
  {
  }

  /** `registerProvisioned` refuses blank credentials with `PROVISIONING`, and otherwise registers them, proxy defaulting to `""`. */
  lemma RegisterProvisionedGuard(args: map<string, string>, provisioned: Provisioned, outcome: EngineOutcome)
    ensures var d := OnMethodCall("registerProvisioned", args, provisioned, outcome);
      if IsNullOrBlank(provisioned.username) || IsNullOrBlank(provisioned.password) || IsNullOrBlank(provisioned.domain)
      then d == Dispatch(None, Error("PROVISIONING", Some("Missing SIP provisioning data")))
      else d.command == Some(Register(provisioned.username.value, provisioned.password.value,
                                      provisioned.domain.value, provisioned.proxy.GetOr("")))
  {
  }

  /** `makeCall` replies `CALL` exactly when `startCall` returns false, and success when it returns true. */
  lemma MakeCallReply(args: map<string, string>, provisioned: Provisioned, ok: bool)
    requires "callee" in args
    ensures var d := OnMethodCall("makeCall", args, provisioned, Returned(ok));
      && d.command == Some(StartCall(args["callee"]))
      && (d.reply == Success <==> ok)
      && (!ok ==> d.reply == Error("CALL", Some("Native makeCall failed")))
  {
  }

  /** `acceptCall` and `hangupCall` report success whatever the engine returns. */
  lemma AcceptAndHangupIgnoreResult(args: map<string, string>, provisioned: Provisioned, ok: bool)
    requires "callId" in args
    ensures OnMethodCall("acceptCall", args, provisioned, Returned(ok)) == Dispatch(Some(AcceptCall(args["callId"])), Success)
    ensures OnMethodCall("hangupCall", args, provisioned, Returned(ok)) == Dispatch(Some(EndCall(args["callId"])), Success)
  {
  }

  /**
   * An unknown method is `notImplemented` with no command; a throw from the
   * engine becomes `ARGUMENT` for an `IllegalArgumentException` and `ERROR`
   * otherwise, with `"Unknown error"` for a missing message.
   */
  lemma UnknownAndThrown(name: string, args: map<string, string>, provisioned: Provisioned, illegal: bool, message: Option<string>)
    ensures !Known(name) ==> OnMethodCall(name, args, provisioned, Raised(illegal, message)) == Dispatch(None, NotImplemented)
    ensures var d := OnMethodCall(name, args, provisioned, Raised(illegal, message));
      d.command.Some? ==> d.reply == (if illegal then Error("ARGUMENT", message) else Error("ERROR", Some(message.GetOr("Unknown error"))))
  {
  }

  /**
   * Flutter gets no reply exactly when a command was issued and the engine
   * call threw an `Error`; every other call is answered.
   */
  lemma ReplyUnlessEscaped(name: string, args: map<string, string>, provisioned: Provisioned, outcome: EngineOutcome)
    ensures var d := OnMethodCall(name, args, provisioned, outcome);
      d.reply == NoReply <==> d.command.Some? && outcome.Escaped?
  {
  }

  /**
   * The outcome of an engine call that ends in a `PjsipEngine` native entry
   * point and passes its result on (`register`, `makeCall`): the native code
   * raises no Java exception, so a throw there is the `UnsatisfiedLinkError`
   * of a missing library, an `Error`.
   */
  function ViaNative(o: Pjsip.NativeOutcome): (e: EngineOutcome)
    ensures e.Escaped? <==> o.Threw?
    ensures e.Returned? ==> o == Pjsip.Returned(e.ok)
  {
    if o.Threw? then Escaped else Returned(o.value)
  }

  /**
   * Without the native library, `register`, `registerProvisioned` and
   * `makeCall` issue their command and then leave Flutter without a reply.
   */
  lemma MissingLibraryLeavesUnanswered(name: string, args: map<string, string>, provisioned: Provisioned, native: Pjsip.NativeOutcome)
    requires name == "register" || name == "registerProvisioned" || name == "makeCall"
    ensures var d := OnMethodCall(name, args, provisioned, ViaNative(Pjsip.Reach(false, native)));
      d.command.Some? ==> d.reply == NoReply
  {
  }
}
