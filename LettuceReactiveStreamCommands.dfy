/** The adapter from stream commands to Lettuce calls: per command it checks
    the required fields, picks the channel, builds the native call, and pairs
    the command with the result the engine's reply maps to. */
module LettuceReactiveStreamCommands {
  import opened Wrappers
  import opened StreamTypes
  import opened LettuceNative
  import opened Batches

  /** The adapter's public operations, one per command kind. */
  datatype Operation = XAck | XAdd | XDel | XGroup | XLen | XRange | XRevRange | XTrim | Read

  /** The command classes each operation takes. XLEN takes any key command. */
  predicate Accepts(op: Operation, cmd: Command) {
    match op
    case XAck => cmd.AcknowledgeCommand?
    case XAdd => cmd.AddStreamRecord?
    case XDel => cmd.DeleteCommand?
    case XGroup => cmd.GroupCommand?
    case XLen => !cmd.ReadCommand?
    case XRange => cmd.RangeCommand?
    case XRevRange => cmd.RangeCommand?
    case XTrim => cmd.TrimCommand?
    case Read => cmd.ReadCommand?
  }

  /** A native call together with the channel it is executed on. */
  datatype Dispatch = Dispatch(channel: Channel, call: NativeCall)

  const Ok: string := "OK"
  const Error: string := "Error"

  // ---------------------------------------------------------------------
  // Converters

  /** The general branch of entryIdsToString: every id's string value. */
  function IdValues(ids: seq<RecordId>): (r: seq<string>)
    ensures |r| == |ids|
    ensures forall i :: 0 <= i < |ids| ==> r[i] == ids[i].value
  {
    if ids == [] then [] else [ids[0].value] + IdValues(ids[1..])
  }

  /** The id array of XACK and XDEL, with its single-element shortcut. */
  function EntryIdsToString(ids: seq<RecordId>): (r: seq<string>)
    ensures r == IdValues(ids)
    ensures |r| == |ids|
    ensures forall i :: 0 <= i < |ids| ==> r[i] == ids[i].value
  {
    if |ids| == 1 then [ids[0].value] else IdValues(ids)
  }

  /** Every stream offset paired with its key, in input order. */
  function ToStreamOffsets(offsets: seq<StreamOffset>): (r: seq<NativeStreamOffset>)
    ensures |r| == |offsets|
    ensures forall i :: 0 <= i < |offsets| ==>
              r[i].name == offsets[i].key && r[i].offset == offsets[i].offset.offset
  {
    if offsets == [] then []
    else [NativeStreamOffset(offsets[0].key, offsets[0].offset.offset)] + ToStreamOffsets(offsets[1..])
  }

  function ToConsumer(consumer: Consumer): NativeConsumer {
    NativeConsumer(consumer.group, consumer.name)
  }

  /** Every native message as a record with the same stream, id and body. */
  function ToRecords(messages: seq<StreamMessage>): (r: seq<ByteBufferRecord>)
    ensures |r| == |messages|
    ensures forall i :: 0 <= i < |messages| ==>
              r[i].stream == messages[i].stream && r[i].id.value == messages[i].id
              && r[i].body == messages[i].body
  {
    if messages == [] then []
    else [ByteBufferRecord(messages[0].stream, RecordId(messages[0].id), messages[0].body)]
         + ToRecords(messages[1..])
  }

  /** The status string reported for a Boolean group reply. */
  function GroupStatus(reply: Option<bool>): (s: string)
    ensures s == Ok <==> reply == Some(true)
    ensures s == Ok || s == Error
  {
    if reply == Some(true) then Ok else Error
  }

  // ---------------------------------------------------------------------
  // Routing

  /** A read that may block (a block timeout of zero or more) gets a
      dedicated connection; every other read shares the connection. */
  function Route(options: StreamReadOptions): (ch: Channel)
    ensures ch == Dedicated <==> options.block.Some? && options.block.value >= 0
    ensures ch == Shared <==> options.block.None? || options.block.value < 0
  {
    if options.block.Some? && options.block.value >= 0 then Dedicated else Shared
  }

  // ---------------------------------------------------------------------
  // Translation, one function per operation

  function TranslateXAck(cmd: Command): (r: Result<Dispatch, Violation>)
    requires cmd.AcknowledgeCommand?
    ensures r.Success? <==> cmd.key.Some? && cmd.group.Some? && cmd.recordIds.Some?
    ensures r.Success? ==>
              && r.value.channel == Shared
              && r.value.call.Xack?
              && r.value.call.key == cmd.key.value
              && r.value.call.group == cmd.group.value
              && r.value.call.ids == IdValues(cmd.recordIds.value)
  {
    if cmd.key.None? then Failure(NullKey)
    else if cmd.group.None? then Failure(NullGroup)
    else if cmd.recordIds.None? then Failure(NullRecordIds)
    else Success(Dispatch(Shared, Xack(cmd.key.value, cmd.group.value, EntryIdsToString(cmd.recordIds.value))))
  }

  function TranslateXAdd(cmd: Command): (r: Result<Dispatch, Violation>)
    requires cmd.AddStreamRecord?
    ensures r.Success? <==> cmd.key.Some? && cmd.body.Some?
    ensures r.Success? ==>
              && r.value.channel == Shared
              && r.value.call.Xadd?
              && r.value.call.key == cmd.key.value
              && r.value.call.body == cmd.body.value
              && (r.value.call.args.id.Some? <==> !cmd.id.ShouldBeAutoGenerated())
              && (r.value.call.args.id.Some? ==> r.value.call.args.id.value == cmd.id.value)
  {
    if cmd.key.None? then Failure(NullKey)
    else if cmd.body.None? then Failure(NullBody)
    else
      var args := if !cmd.id.ShouldBeAutoGenerated() then XAddArgs(Some(cmd.id.value)) else XAddArgs(None);
      Success(Dispatch(Shared, Xadd(cmd.key.value, args, cmd.body.value)))
  }

  function TranslateXDel(cmd: Command): (r: Result<Dispatch, Violation>)
    requires cmd.DeleteCommand?
    ensures r.Success? <==> cmd.key.Some? && cmd.recordIds.Some?
    ensures r.Success? ==>
              && r.value.channel == Shared
              && r.value.call.Xdel?
              && r.value.call.key == cmd.key.value
              && r.value.call.ids == IdValues(cmd.recordIds.value)
  {
    if cmd.key.None? then Failure(NullKey)
    else if cmd.recordIds.None? then Failure(NullRecordIds)
    else Success(Dispatch(Shared, Xdel(cmd.key.value, EntryIdsToString(cmd.recordIds.value))))
  }

  /** The three-way dispatch on the group action; any other action is refused. */
  function TranslateXGroup(cmd: Command): (r: Result<Dispatch, Violation>)
    requires cmd.GroupCommand?
    ensures r.Success? <==>
              && cmd.key.Some? && cmd.groupName.Some?
              && match cmd.action
                 case Create => cmd.readOffset.Some?
                 case DeleteConsumer => cmd.consumerName.Some?
                 case Destroy => true
                 case OtherAction(_) => false
    ensures r.Success? ==> r.value.channel == Shared
    ensures r.Success? && cmd.action == Create ==>
              r.value.call == XgroupCreate(NativeStreamOffset(cmd.key.value, cmd.readOffset.value.offset),
                                           cmd.groupName.value)
    ensures r.Success? && cmd.action == DeleteConsumer ==>
              r.value.call == XgroupDelconsumer(cmd.key.value,
                                                NativeConsumer(cmd.groupName.value, cmd.consumerName.value))
    ensures r.Success? && cmd.action == Destroy ==>
              r.value.call == XgroupDestroy(cmd.key.value, cmd.groupName.value)
  {
    if cmd.key.None? then Failure(NullKey)
    else if cmd.groupName.None? then Failure(NullGroupName)
    else
      match cmd.action
      case Create =>
        if cmd.readOffset.None? then Failure(NullReadOffset)
        else
          var offset := NativeStreamOffset(cmd.key.value, cmd.readOffset.value.offset);
          Success(Dispatch(Shared, XgroupCreate(offset, cmd.groupName.value)))
      case DeleteConsumer =>
        if cmd.consumerName.None? then Failure(NullConsumerName)
        else
          var consumer := NativeConsumer(cmd.groupName.value, cmd.consumerName.value);
          Success(Dispatch(Shared, XgroupDelconsumer(cmd.key.value, consumer)))
      case Destroy =>
        Success(Dispatch(Shared, XgroupDestroy(cmd.key.value, cmd.groupName.value)))
      case OtherAction(_) =>
        Failure(UnknownGroupCommand(cmd.action))
  }

  /** XLEN accepts any key command and uses only its key. */
  function TranslateXLen(cmd: Command): (r: Result<Dispatch, Violation>)
    requires !cmd.ReadCommand?
    ensures r.Success? <==> cmd.key.Some?
    ensures r.Success? ==> r.value == Dispatch(Shared, Xlen(cmd.key.value))
  {
    if cmd.key.None? then Failure(NullKey)
    else Success(Dispatch(Shared, Xlen(cmd.key.value)))
  }

  /** XRANGE and XREVRANGE; `reverse` selects the descending scan. */
  function TranslateRange(cmd: Command, reverse: bool): (r: Result<Dispatch, Violation>)
    requires cmd.RangeCommand?
    ensures r.Success? <==> cmd.key.Some? && cmd.range.Some? && cmd.limit.Some?
    ensures r.Success? ==>
              && r.value.channel == Shared
              && (if reverse then r.value.call.Xrevrange? else r.value.call.Xrange?)
              && r.value.call.key == cmd.key.value
              && r.value.call.range.source == cmd.range.value
              && r.value.call.limit.source == cmd.limit.value
  {
    if cmd.key.None? then Failure(NullKey)
    else if cmd.range.None? then Failure(NullRange)
    else if cmd.limit.None? then Failure(NullLimit)
    else
      var range, limit := RangeOf(cmd.range.value), LimitOf(cmd.limit.value);
      if reverse then Success(Dispatch(Shared, Xrevrange(cmd.key.value, range, limit)))
      else Success(Dispatch(Shared, Xrange(cmd.key.value, range, limit)))
  }

  function TranslateXTrim(cmd: Command): (r: Result<Dispatch, Violation>)
    requires cmd.TrimCommand?
    ensures r.Success? <==> cmd.key.Some? && cmd.count.Some?
    ensures r.Success? ==> r.value == Dispatch(Shared, Xtrim(cmd.key.value, cmd.count.value))
  {
    if cmd.key.None? then Failure(NullKey)
    else if cmd.count.None? then Failure(NullCount)
    else Success(Dispatch(Shared, Xtrim(cmd.key.value, cmd.count.value)))
  }

  /** XREAD without a consumer, XREADGROUP with one; routed by the block timeout. */
  function TranslateRead(cmd: Command): (r: Result<Dispatch, Violation>)
    requires cmd.ReadCommand?
    ensures r.Success? <==> cmd.streamOffsets.Some? && cmd.readOptions.Some?
    ensures r.Success? ==>
              && r.value.channel == Route(cmd.readOptions.value)
              && (r.value.call.Xread? <==> cmd.consumer.None?)
              && (r.value.call.Xreadgroup? <==> cmd.consumer.Some?)
              && r.value.call.readArgs.source == cmd.readOptions.value
              && |r.value.call.offsets| == |cmd.streamOffsets.value|
              && (forall i :: 0 <= i < |cmd.streamOffsets.value| ==>
                    r.value.call.offsets[i].name == cmd.streamOffsets.value[i].key
                    && r.value.call.offsets[i].offset == cmd.streamOffsets.value[i].offset.offset)
    ensures r.Success? && cmd.consumer.Some? ==>
              r.value.call.consumer.group == cmd.consumer.value.group
              && r.value.call.consumer.name == cmd.consumer.value.name
  {
    if cmd.streamOffsets.None? then Failure(NullStreamOffsets)
    else if cmd.readOptions.None? then Failure(NullReadOptions)
    else
      var options := cmd.readOptions.value;
      var offsets := ToStreamOffsets(cmd.streamOffsets.value);
      var args := ReadArgsOf(options);
      var call := if cmd.consumer.None? then Xread(args, offsets)
                  else Xreadgroup(ToConsumer(cmd.consumer.value), args, offsets);
      Success(Dispatch(Route(options), call))
  }

  /** The native call and channel for one command of an operation, or the
      violation that stops it before any call is built. */
  function Translate(op: Operation, cmd: Command): (r: Result<Dispatch, Violation>)
    requires Accepts(op, cmd)
    ensures r.Success? && op != Read ==> r.value.channel == Shared
    ensures r.Success? && op == Read ==> cmd.readOptions.Some? && r.value.channel == Route(cmd.readOptions.value)
  {
    match op
    case XAck => TranslateXAck(cmd)
    case XAdd => TranslateXAdd(cmd)
    case XDel => TranslateXDel(cmd)
    case XGroup => TranslateXGroup(cmd)
    case XLen => TranslateXLen(cmd)
    case XRange => TranslateRange(cmd, false)
    case XRevRange => TranslateRange(cmd, true)
    case XTrim => TranslateXTrim(cmd)
    case Read => TranslateRead(cmd)
  }

  // ---------------------------------------------------------------------
  // Results and batches

  datatype CommandResult =
    | Numeric(n: int)
    | AddedId(id: RecordId)
    | Status(status: string)
    | Records(records: seq<ByteBufferRecord>)

  /** What a caller receives for one command: the command itself and its result. */
  datatype Response = Response(command: Command, result: CommandResult)

  /** The result the engine's reply to `call` is mapped to. */
  function ResultOf(call: NativeCall, engine: Engine): (r: CommandResult)
    ensures (call.Xack? || call.Xdel? || call.Xlen? || call.Xtrim?) ==> r == Numeric(engine.count(call))
    ensures call.Xadd? ==> r.AddedId? && r.id.value == engine.id(call)
    ensures call.XgroupCreate? ==> r == Status(engine.status(call))
    ensures (call.XgroupDelconsumer? || call.XgroupDestroy?) ==>
              r.Status? && (r.status == Ok <==> engine.flag(call) == Some(true))
              && (r.status == Ok || r.status == Error)
    ensures (call.Xrange? || call.Xrevrange? || call.Xread? || call.Xreadgroup?) ==>
              r.Records? && |r.records| == |engine.messages(call)|
              && forall i :: 0 <= i < |r.records| ==>
                   r.records[i].stream == engine.messages(call)[i].stream
                   && r.records[i].id.value == engine.messages(call)[i].id
                   && r.records[i].body == engine.messages(call)[i].body
  {
    match call
    case Xack(_, _, _) => Numeric(engine.count(call))
    case Xdel(_, _) => Numeric(engine.count(call))
    case Xlen(_) => Numeric(engine.count(call))
    case Xtrim(_, _) => Numeric(engine.count(call))
    case Xadd(_, _, _) => AddedId(RecordId(engine.id(call)))
    case XgroupCreate(_, _) => Status(engine.status(call))
    case XgroupDelconsumer(_, _) => Status(GroupStatus(engine.flag(call)))
    case XgroupDestroy(_, _) => Status(GroupStatus(engine.flag(call)))
    case Xrange(_, _, _) => Records(ToRecords(engine.messages(call)))
    case Xrevrange(_, _, _) => Records(ToRecords(engine.messages(call)))
    case Xread(_, _) => Records(ToRecords(engine.messages(call)))
    case Xreadgroup(_, _, _) => Records(ToRecords(engine.messages(call)))
  }

  /** The output of one operation over a sequence of commands: the responses
      emitted (`outputs`), the calls dispatched for them (`steps`), and the
      violation, if any, that ended the sequence. */
  type Outcome = Processed<Response, Dispatch, Violation>

  predicate AllAccepted(op: Operation, cmds: seq<Command>) {
    forall i :: 0 <= i < |cmds| ==> Accepts(op, cmds[i])
  }

  function Step(op: Operation): Command --> Result<Dispatch, Violation> {
    cmd requires Accepts(op, cmd) => Translate(op, cmd)
  }

  function Respond(engine: Engine): (Command, Dispatch) -> Response {
    (cmd: Command, d: Dispatch) => Response(cmd, ResultOf(d.call, engine))
  }

  /** Runs an operation over its commands in input order. Response i carries
      command i and the result of the call dispatched for it. The first command
      that fails validation ends the sequence with its violation; no call is
      dispatched for it or for any command after it. */
  function Run(op: Operation, cmds: seq<Command>, engine: Engine): (o: Outcome)
    requires AllAccepted(op, cmds)
    ensures |o.outputs| == |o.steps| <= |cmds|
    ensures forall i :: 0 <= i < |o.outputs| ==>
              Translate(op, cmds[i]) == Success(o.steps[i])
              && o.outputs[i] == Response(cmds[i], ResultOf(o.steps[i].call, engine))
    ensures o.error.None? <==> |o.outputs| == |cmds|
    ensures o.error.Some? ==> Translate(op, cmds[|o.outputs|]) == Failure(o.error.value)
  {
    ProcessCorrect(cmds, Step(op), Respond(engine));
    Process(cmds, Step(op), Respond(engine))
  }
}
