/**
 * The earlier `voip_engine` method channel, whose `register`, `unregister`
 * and `acceptCall` reach stub extensions that do nothing, and whose `makeCall`
 * ignores what `startCall` returns. Commands, outcomes and replies are those
 * of the later channel.
 */
module ExampleMethodChannel {
  import opened Wrappers
  import opened MethodChannel

  /** `onMethodCall`; the outcome is that of the engine call made, if one is. */
  function OnMethodCall(name: string, args: map<string, string>, outcome: EngineOutcome): Dispatch {
    if name == "init" then Issue(Initialize, outcome, Success)
    else if name == "register" || name == "unregister" then Dispatch(None, Success)
    else if name == "makeCall" then WithArgument(args, "callee", c => StartCall(c), outcome, Success)
    else if name == "acceptCall" then
      if "callId" in args then Dispatch(None, Success) else Dispatch(None, MissingArgument("callId"))
    else if name == "hangupCall" then WithArgument(args, "callId", c => EndCall(c), outcome, Success)
    else Dispatch(None, NotImplemented)
  }

  /** The methods this channel knows. */
  predicate Known(name: string) {
    name in {"init", "register", "unregister", "makeCall", "acceptCall", "hangupCall"}
  }

  /** A missing `callee` or `callId` yields `ARGUMENT` naming it, and no engine command. */
  lemma MissingArgumentIssuesNothing(name: string, args: map<string, string>, outcome: EngineOutcome)
    ensures name == "makeCall" && "callee" !in args ==>
      OnMethodCall(name, args, outcome) == Dispatch(None, MissingArgument("callee"))
    ensures (name == "acceptCall" || name == "hangupCall") && "callId" !in args ==>
      OnMethodCall(name, args, outcome) == Dispatch(None, MissingArgument("callId"))
  {
  }

  /**
   * `register`, `unregister` and `acceptCall` (given its argument) report
   * success and reach no engine command, whatever the engine would have done.
   */
  lemma StubsSucceedSilently(args: map<string, string>, outcome: EngineOutcome)
    ensures OnMethodCall("register", args, outcome) == Dispatch(None, Success)
    ensures OnMethodCall("unregister", args, outcome) == Dispatch(None, Success)
    ensures "callId" in args ==> OnMethodCall("acceptCall", args, outcome) == Dispatch(None, Success)
  {
  }

  /**
   * `makeCall` reports success whether `startCall` returns true or false,
   * and `hangupCall` is delegated to `endCall`; here the later channel
   * replies `CALL` on a false `startCall`.
   */
  lemma MakeCallIgnoresResult(args: map<string, string>, p: Provisioned, ok: bool)
    requires "callee" in args && "callId" in args
    ensures OnMethodCall("makeCall", args, Returned(ok)) == Dispatch(Some(StartCall(args["callee"])), Success)
    ensures OnMethodCall("hangupCall", args, Returned(ok)) == Dispatch(Some(EndCall(args["callId"])), Success)
    ensures !ok ==> MethodChannel.OnMethodCall("makeCall", args, p, Returned(ok)).reply != OnMethodCall("makeCall", args, Returned(ok)).reply
  {
  }

  /**
   * An unknown method is `notImplemented`; every engine command issued is one
   * the later channel issues for the same call, and a throw gets the same
   * reply (none, for an escaping `Error`).
   */
  lemma AgreesWithLaterChannel(name: string, args: map<string, string>, p: Provisioned, outcome: EngineOutcome)
    ensures !Known(name) ==> OnMethodCall(name, args, outcome) == Dispatch(None, NotImplemented)
    ensures OnMethodCall(name, args, outcome).command.Some? ==>
      OnMethodCall(name, args, outcome).command == MethodChannel.OnMethodCall(name, args, p, outcome).command
    ensures OnMethodCall(name, args, outcome).command.Some? && !outcome.Returned? ==>
      OnMethodCall(name, args, outcome) == MethodChannel.OnMethodCall(name, args, p, outcome)
  {
  }
}
