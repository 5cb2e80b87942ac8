/** The method-channel vocabulary shared by both platform handlers: the call a
    handler receives and the reply it sends back (or does not send). */
module Channel {

  datatype Option<T> = None | Some(value: T)

  /** A value carried by a successful reply: the handlers answer with a text or,
      for the iOS play/pause toggle, with a boolean. */
  datatype Payload = Text(text: string) | Flag(flag: bool)

  /** What a handler does with its `result` callback for one call.
      `NoReply` stands for the paths that return without ever calling it. */
  datatype Reply =
    | Success(payload: Payload)
    | Error(code: string)
    | NoReply
    | NotImplemented

  /** One decoded argument value, as the channel's codec delivers it. */
  datatype ArgValue = IntArg(i: int) | DoubleArg(d: real) | StringArg(s: string) | OtherArg

  /** A call: the method name and its arguments (absent, or a string-keyed map). */
  datatype MethodCall = MethodCall(name: string, arguments: Option<map<string, ArgValue>>)
}
