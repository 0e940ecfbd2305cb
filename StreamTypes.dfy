/** The client-agnostic side of the stream commands: record ids, offsets,
    consumers, read options, and the command objects a caller submits.
    Java references that may be null are `Option` fields. */
module StreamTypes {
  import opened Wrappers

  /** Keys, field names and values travel as raw bytes. */
  type Bytes = seq<bv8>
  type Key = Bytes
  type Body = map<Bytes, Bytes>

  /** The id value that asks the server to generate the id on XADD. */
  const AutoGenerate: string := "*"

  datatype RecordId = RecordId(value: string) {
    predicate ShouldBeAutoGenerated() {
      value == AutoGenerate
    }
  }

  /** A read cursor token: a concrete id or a symbolic one such as "$" or ">". */
  datatype ReadOffset = ReadOffset(offset: string)

  datatype StreamOffset = StreamOffset(key: Key, offset: ReadOffset)

  /** A named reader inside a consumer group. */
  datatype Consumer = Consumer(group: string, name: string)

  datatype Bound = Unbounded | Inclusive(value: string) | Exclusive(value: string)

  datatype Range = Range(lower: Bound, upper: Bound)

  datatype Limit = Limit(offset: int, count: int)

  /** `block` is the blocking timeout in milliseconds, absent when the read does not block. */
  datatype StreamReadOptions = StreamReadOptions(block: Option<int>, count: Option<int>, noack: bool)

  /** The actions of a group command; any other constant of the action
      enumeration is carried by `OtherAction`. */
  datatype GroupAction = Create | DeleteConsumer | Destroy | OtherAction(name: string)

  /** One constructor per command class a caller can submit. Every
      constructor except `ReadCommand` is a key command and has a `key`. */
  datatype Command =
    | AcknowledgeCommand(key: Option<Key>, group: Option<string>, recordIds: Option<seq<RecordId>>)
    | AddStreamRecord(key: Option<Key>, id: RecordId, body: Option<Body>)
    | DeleteCommand(key: Option<Key>, recordIds: Option<seq<RecordId>>)
    | GroupCommand(key: Option<Key>, groupName: Option<string>, action: GroupAction,
                   readOffset: Option<ReadOffset>, consumerName: Option<string>)
    | KeyCommand(key: Option<Key>)
    | RangeCommand(key: Option<Key>, range: Option<Range>, limit: Option<Limit>)
    | TrimCommand(key: Option<Key>, count: Option<int>)
    | ReadCommand(streamOffsets: Option<seq<StreamOffset>>, readOptions: Option<StreamReadOptions>,
                  consumer: Option<Consumer>)

  /** A record handed back to the caller by a range scan or a read. */
  datatype ByteBufferRecord = ByteBufferRecord(stream: Key, id: RecordId, body: Body)

  /** Why a command is refused before any native call is built: a required
      field is null, or the group action is not one of the three handled. */
  datatype Violation =
    | NullKey
    | NullGroup
    | NullRecordIds
    | NullBody
    | NullGroupName
    | NullReadOffset
    | NullConsumerName
    | NullRange
    | NullLimit
    | NullCount
    | NullStreamOffsets
    | NullReadOptions
    | UnknownGroupCommand(action: GroupAction)
}
