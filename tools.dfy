/**
 * The one tool council members may call while they collaborate
 * (`ToolExecutor` in backend/tools.py): dispatch on the tool name, the check of
 * `send_message`'s two required fields, and the append to the message queue that
 * the executor shares, by reference, with the collaboration loop.
 *
 * Tool arguments arrive already decoded from JSON. A result is kept as a tagged
 * value; the JSON text that carries it is not modelled.
 */
module Tools {
  import opened Wrappers

  /**
   * A decoded JSON value given as an argument: a string, or any other JSON value,
   * of which only its Python truthiness and its `str()` text matter here.
   */
  datatype ArgValue =
    | Str(s: string)
    | NonString(truthy: bool, text: string)
  {
    /** Python truthiness: a string is true when it is not empty. */
    predicate Truthy() {
      match this
      case Str(s) => s != []
      case NonString(t, _) => t
    }
  }

  /**
   * The decoded `arguments` of a tool call: a JSON object, or some other JSON
   * value, known by the name of its Python type (`list`, `int`, `str`, ...).
   */
  datatype Arguments =
    | Object(fields: map<string, ArgValue>)
    | NotObject(typeName: string)

  /** A queued message, `{"from": ..., "to": ..., "message": ...}`. */
  datatype Message = Message(from: string, to: ArgValue, message: ArgValue)

  /** What `execute` reports back to the caller. */
  datatype ToolResult =
    | Sent(from: string, to: ArgValue)   // {"status": "sent", "from": ..., "to": ...}
    | UnknownTool(name: string)          // {"error": "Unknown tool: <name>"}
    | MissingFields                      // {"error": "Missing required fields: to_member, message"}
    | ExecutionFailed(reason: string)    // {"error": "Tool execution failed: <reason>"}

  const SendMessageTool: string := "send_message"
  const ToMemberKey: string := "to_member"
  const MessageKey: string := "message"

  /** `args.get(key)`: `None` (which is falsy) when the key is missing. */
  function Get(fields: map<string, ArgValue>, key: string): Option<ArgValue> {
    if key in fields then Some(fields[key]) else None
  }

  /** The value is there and truthy, as `all([...])` demands of each field. */
  predicate Given(v: Option<ArgValue>) {
    v.Some? && v.value.Truthy()
  }

  /**
   * What makes a call send a message, stated independently of the dispatch:
   * the tool is `send_message`, the arguments are an object, and both required
   * fields are present and truthy.
   */
  predicate SendsMessage(toolName: string, args: Arguments) {
    toolName == SendMessageTool && args.Object?
    && Given(Get(args.fields, ToMemberKey)) && Given(Get(args.fields, MessageKey))
  }

  /** The text of the `AttributeError` raised by `args.get` on a value that is not a dict. */
  function NoGetReason(typeName: string): string {
    "'" + typeName + "' object has no attribute 'get'"
  }

  /** What one call reports and what it appends to the queue. */
  datatype Outcome = Outcome(result: ToolResult, sent: seq<Message>)

  /** `_send_message` on an object: checks both required fields, then queues one message. */
  function SendOutcome(caller: string, fields: map<string, ArgValue>): Outcome {
    var to, message := Get(fields, ToMemberKey), Get(fields, MessageKey);
    if !(Given(to) && Given(message)) then Outcome(MissingFields, [])
    else Outcome(Sent(caller, to.value), [Message(caller, to.value, message.value)])
  }

  /**
   * Both fields are required: a valid call queues one message from the caller and
   * acknowledges it with the same sender and recipient; any other call queues
   * nothing and reports the missing fields.
   */
  lemma SendOutcomeSpec(caller: string, fields: map<string, ArgValue>)
    ensures var o := SendOutcome(caller, fields);
      |o.sent| <= 1
      && (o.sent != [] <==> Given(Get(fields, ToMemberKey)) && Given(Get(fields, MessageKey)))
      && (o.sent == [] ==> o.result == MissingFields)
      && (o.sent != [] ==>
            o.sent[0] == Message(caller, fields[ToMemberKey], fields[MessageKey])
            && o.result == Sent(caller, fields[ToMemberKey]))
  {
  }

  /**
   * `execute`: dispatch on the tool name; an exception raised while sending
   * (arguments that are not a dict have no `get`) becomes an error result.
   */
  function Dispatch(caller: string, toolName: string, args: Arguments): Outcome {
    if toolName != SendMessageTool then Outcome(UnknownTool(toolName), [])
    else
      match args
      case NotObject(typeName) => Outcome(ExecutionFailed(NoGetReason(typeName)), [])
      case Object(fields) => SendOutcome(caller, fields)
  }

  /**
   * An unknown tool is reported and queues nothing; arguments that are not an
   * object make the execution fail; otherwise a message is queued, from the
   * caller and acknowledged as sent, exactly when `SendsMessage` holds, and the
   * missing fields are reported when it does not.
   */
  lemma DispatchSpec(caller: string, toolName: string, args: Arguments)
    ensures var o := Dispatch(caller, toolName, args);
      |o.sent| <= 1
      && (o.sent != [] <==> SendsMessage(toolName, args))
      && (o.result.Sent? <==> o.sent != [])
      && (toolName != SendMessageTool ==> o.result == UnknownTool(toolName))
      && (toolName == SendMessageTool && args.NotObject? ==>
            o.result == ExecutionFailed(NoGetReason(args.typeName)))
      && (toolName == SendMessageTool && args.Object? && !SendsMessage(toolName, args) ==>
            o.result == MissingFields)
      && (o.sent != [] ==>
            o.sent[0] == Message(caller, args.fields[ToMemberKey], args.fields[MessageKey])
            && o.result == Sent(o.sent[0].from, o.sent[0].to))
  {
    if toolName == SendMessageTool && args.Object? {
      SendOutcomeSpec(caller, args.fields);
    }
  }

  /** The message list shared by the executor and the collaboration loop. */
  class MessageQueue {
    var items: seq<Message>

    constructor ()
      ensures items == []
    {
      items := [];
    }

    /** `message_queue.append(msg)`. */
    method Append(m: Message)
      modifies this
      ensures items == old(items) + [m]
    {
      items := items + [m];
    }

    /** `message_queue.pop(0)`. */
    method PopFront() returns (m: Message)
      requires items != []
      modifies this
      ensures [m] + items == old(items)
    {
      m := items[0];
      items := items[1..];
    }
  }

  /** `ToolExecutor`: holds the caller's queue by reference. */
  class ToolExecutor {
    const queue: MessageQueue

    constructor (q: MessageQueue)
      ensures queue == q
    {
      queue := q;
    }

    /** `execute`: the result and the queue's new contents are those of `Dispatch`. */
    method Execute(memberName: string, toolName: string, args: Arguments) returns (r: ToolResult)
      modifies queue
      ensures r == Dispatch(memberName, toolName, args).result
      ensures queue.items == old(queue.items) + Dispatch(memberName, toolName, args).sent
    {
      if toolName == SendMessageTool {
        match args
        case Object(fields) =>
          r := SendMessage(memberName, fields);
        case NotObject(typeName) =>
          r := ExecutionFailed(NoGetReason(typeName));
      } else {
        r := UnknownTool(toolName);
      }
    }

    /** `_send_message`: checks both fields, then queues one message at the end. */
    method SendMessage(fromMember: string, fields: map<string, ArgValue>) returns (r: ToolResult)
      modifies queue
      ensures r == SendOutcome(fromMember, fields).result
      ensures queue.items == old(queue.items) + SendOutcome(fromMember, fields).sent
    {
      var to, message := Get(fields, ToMemberKey), Get(fields, MessageKey);
      if !(Given(to) && Given(message)) {
        return MissingFields;
      }
      queue.Append(Message(fromMember, to.value, message.value));
      r := Sent(fromMember, to.value);
    }
  }
}
