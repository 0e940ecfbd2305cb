/** The engine side: descriptions of the Lettuce calls the adapter issues,
    the two execution channels, and the replies the engine gives back. */
module LettuceNative {
  import opened Wrappers
  import opened StreamTypes

  /** `Shared` is the multiplexed connection used by `execute`; `Dedicated`
      is the connection `executeDedicated` holds for one blocking call. */
  datatype Channel = Shared | Dedicated

  /** XADD arguments; `id` is set only when an explicit id is forwarded. */
  datatype XAddArgs = XAddArgs(id: Option<string>)

  datatype NativeStreamOffset = NativeStreamOffset(name: Key, offset: string)

  datatype NativeConsumer = NativeConsumer(group: string, name: string)

  /** The range, limit and read arguments produced by converters that are not
      part of this model; each records the domain value it was built from. */
  datatype NativeRange = RangeOf(source: Range)
  datatype NativeLimit = LimitOf(source: Limit)
  datatype XReadArgs = ReadArgsOf(source: StreamReadOptions)

  /** One constructor per Lettuce command method, named after it. */
  datatype NativeCall =
    | Xack(key: Key, group: string, ids: seq<string>)
    | Xadd(key: Key, args: XAddArgs, body: Body)
    | Xdel(key: Key, ids: seq<string>)
    | XgroupCreate(streamOffset: NativeStreamOffset, group: string)
    | XgroupDelconsumer(key: Key, consumer: NativeConsumer)
    | XgroupDestroy(key: Key, group: string)
    | Xlen(key: Key)
    | Xrange(key: Key, range: NativeRange, limit: NativeLimit)
    | Xrevrange(key: Key, range: NativeRange, limit: NativeLimit)
    | Xtrim(key: Key, count: int)
    | Xread(readArgs: XReadArgs, offsets: seq<NativeStreamOffset>)
    | Xreadgroup(consumer: NativeConsumer, readArgs: XReadArgs, offsets: seq<NativeStreamOffset>)

  /** A stream entry as the engine returns it. */
  datatype StreamMessage = StreamMessage(stream: Key, id: string, body: Body)

  /** What the engine answers to a call, supplied by the caller: a count
      (XACK, XDEL, XLEN, XTRIM), a generated id (XADD), a status string
      (group create), a Boolean that may be null (delete consumer, destroy)
      and the messages a range or read delivers. */
  datatype Engine = Engine(
    count: NativeCall -> int,
    id: NativeCall -> string,
    status: NativeCall -> string,
    flag: NativeCall -> Option<bool>,
    messages: NativeCall -> seq<StreamMessage>)
}
