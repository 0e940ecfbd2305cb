# Lettuce reactive stream commands

A Dafny model of the part of Spring Data Redis's `LettuceReactiveStreamCommands`
that holds logic: it turns the Redis Stream commands a caller submits (XACK, XADD,
XDEL, XGROUP, XLEN, XRANGE, XREVRANGE, XTRIM and XREAD/XREADGROUP) into Lettuce
calls. For each command the adapter

1. checks the command's required fields (Java `Assert.notNull`) before building anything;
2. picks the channel: the shared connection (`execute`) for everything except a read
   that may block, which gets a dedicated connection (`executeDedicated`);
3. builds exactly one native call with its arguments (explicit XADD id only when the
   id is not the auto-generate sentinel, three-way XGROUP dispatch, id and offset
   arrays in input order, XREAD or XREADGROUP depending on the consumer);
4. maps the engine's reply to the result it reports (a count, the generated id, the
   group status `"OK"`/`"Error"`, or the records) and pairs it with the command.

Files:

- `Wrappers.dfy`: `Option` (a Java reference that may be null) and `Result`.
- `StreamTypes.dfy`: record ids, offsets, consumers, read options, the command
  variants (named after the Java command classes) and the `Violation`s that refuse a
  command.
- `LettuceNative.dfy`: the `Channel`, the `NativeCall` descriptions (one per Lettuce
  method), and the `Engine`, the caller-supplied replies of the engine.
- `Batches.dfy`: the generic pipeline an operation runs over its input commands.
  Commands go in order, each passing command yields one output, and the first failing
  command ends the sequence.
- `LettuceReactiveStreamCommands.dfy`: the converters, routing, one translation
  function per operation, the reply-to-result mapping and `Run`, which is the pipeline
  instantiated with the translation and the reply mapping.
- `StreamCommandProperties.dfy`: the order of the null checks as a table, which fields
  the group call ignores, and how a batch splits.

The model keeps these behaviours of the code:

- A command that fails validation throws inside `map`/`concatMap`, which ends the whole
  output sequence with that error. `Run` therefore stops at the first invalid command and
  dispatches no call for it or for any later command. It does not skip the bad element
  and carry on.
- Empty `recordIds` and empty `streamOffsets` are not rejected. The code checks only for null.
- There are three group actions plus an error for any other action.
- XLEN takes any key command (acknowledge, add, delete, group, range, trim or a bare
  key command) and uses only its key.

## Model

| member | source | states |
|---|---|---|
| `LettuceReactiveStreamCommands.IdValues` | src/main/java/org/springframework/data/redis/connection/lettuce/LettuceReactiveStreamCommands.java:292 | the general branch gives one string per id, each the id's value, in input order |
| `LettuceReactiveStreamCommands.EntryIdsToString` | src/main/java/org/springframework/data/redis/connection/lettuce/LettuceReactiveStreamCommands.java:286-293 | the id array equals the general branch for every input, so the single-element shortcut gives exactly `[ids[0].value]`; same length, values in input order |
| `LettuceReactiveStreamCommands.ToStreamOffsets` | src/main/java/org/springframework/data/redis/connection/lettuce/LettuceReactiveStreamCommands.java:273-278 | one native offset per stream offset, in input order, each pairing the same key with its offset token |
| `LettuceReactiveStreamCommands.ToRecords` | src/main/java/org/springframework/data/redis/connection/lettuce/LettuceReactiveStreamCommands.java:191-192 | one record per native message, in delivery order, keeping stream, id and body |
| `LettuceReactiveStreamCommands.GroupStatus` | src/main/java/org/springframework/data/redis/connection/lettuce/LettuceReactiveStreamCommands.java:147 | the status is `"OK"` iff the reply is `Boolean.TRUE`; false or null give `"Error"`; no third value |
| `LettuceReactiveStreamCommands.Route` | src/main/java/org/springframework/data/redis/connection/lettuce/LettuceReactiveStreamCommands.java:208-214 | dedicated channel iff block is non-null and >= 0; shared iff block is null or negative |
| `LettuceReactiveStreamCommands.TranslateXAck` | src/main/java/org/springframework/data/redis/connection/lettuce/LettuceReactiveStreamCommands.java:69-81 | succeeds iff key, group and recordIds are non-null; then one XACK on the shared channel with that key and group and the ids' values in order |
| `LettuceReactiveStreamCommands.TranslateXAdd` | src/main/java/org/springframework/data/redis/connection/lettuce/LettuceReactiveStreamCommands.java:88-103 | succeeds iff key and body are non-null; the XADD arguments carry an explicit id iff the record id is not auto-generated, and that id is the record's |
| `LettuceReactiveStreamCommands.TranslateXDel` | src/main/java/org/springframework/data/redis/connection/lettuce/LettuceReactiveStreamCommands.java:110-120 | succeeds iff key and recordIds are non-null; then one XDEL with that key and the ids' values in order |
| `LettuceReactiveStreamCommands.TranslateXGroup` | src/main/java/org/springframework/data/redis/connection/lettuce/LettuceReactiveStreamCommands.java:124-157 | needs key and group name; CREATE needs a read offset and creates the group at (key, offset); DELETE_CONSUMER deletes the consumer (group name, consumer name); DESTROY destroys (key, group name); any other action fails |
| `LettuceReactiveStreamCommands.TranslateXLen` | src/main/java/org/springframework/data/redis/connection/lettuce/LettuceReactiveStreamCommands.java:165-173 | succeeds iff the key is non-null; then XLEN of that key on the shared channel |
| `LettuceReactiveStreamCommands.TranslateRange` | src/main/java/org/springframework/data/redis/connection/lettuce/LettuceReactiveStreamCommands.java:180-194 | succeeds iff key, range and limit are non-null; XRANGE (XREVRANGE when reversed, lines 240-254) of that key with the converted range and limit |
| `LettuceReactiveStreamCommands.TranslateXTrim` | src/main/java/org/springframework/data/redis/connection/lettuce/LettuceReactiveStreamCommands.java:261-270 | succeeds iff key and count are non-null; then XTRIM of that key to that count |
| `LettuceReactiveStreamCommands.TranslateRead` | src/main/java/org/springframework/data/redis/connection/lettuce/LettuceReactiveStreamCommands.java:201-233 | succeeds iff streamOffsets and readOptions are non-null; routed by the block value; XREAD iff there is no consumer, else XREADGROUP with the native consumer (group, name); offsets keep order, length, keys and tokens |
| `LettuceReactiveStreamCommands.Translate` | src/main/java/org/springframework/data/redis/connection/lettuce/LettuceReactiveStreamCommands.java:203-214 | every operation except read runs on the shared channel (`connection.execute` at lines 71, 90, 112, 126, 167, 182, 242, 263); a read runs on the channel its read options route it to |
| `LettuceReactiveStreamCommands.ResultOf` | src/main/java/org/springframework/data/redis/connection/lettuce/LettuceReactiveStreamCommands.java:100-101 | counts pass through (lines 79, 118, 171, 268); XADD's result wraps the id the engine returned; group create passes the status through (line 138); delete-consumer and destroy give `"OK"` iff the reply is true, else `"Error"` (lines 147, 153); ranges and reads give the engine's messages as records (lines 191-192, 226, 232, 252) |
| `LettuceReactiveStreamCommands.Run` | src/main/java/org/springframework/data/redis/connection/lettuce/LettuceReactiveStreamCommands.java:71-80 | commands are handled in input order; response i carries command i and the result of its dispatched call; the sequence is complete iff no command fails validation, and it ends at the first one that fails, with that violation (the same pipeline for every operation: lines 71-80, 90-102, 112-119, 126-157, 167-172, 182-193, 203-215, 242-253, 263-269) |
| `StreamCommandProperties.TranslateChecksInOrder` | src/main/java/org/springframework/data/redis/connection/lettuce/LettuceReactiveStreamCommands.java:73-75 | each operation refuses a command iff one of its null checks fails, and reports the first failing check in source order (the same for the checks at lines 92-93, 114-115, 128-133, 169, 184-186, 205-206, 265-266) |
| `StreamCommandProperties.GroupCallIgnoresUnusedFields` | src/main/java/org/springframework/data/redis/connection/lettuce/LettuceReactiveStreamCommands.java:131-154 | DESTROY depends only on key and group name; CREATE ignores the consumer name; DELETE_CONSUMER ignores the read offset |
| `StreamCommandProperties.RunSplits` | src/main/java/org/springframework/data/redis/connection/lettuce/LettuceReactiveStreamCommands.java:90-102 | the adapter keeps no state between commands: when a prefix passes validation, the output for the whole batch is the prefix's output followed by the rest's (for every operation's pipeline, as listed for `Run`) |
| `Batches.ProcessCorrect` | src/main/java/org/springframework/data/redis/connection/lettuce/LettuceReactiveStreamCommands.java:112-119 | for any step and response mapping, output i pairs command i with its successful step; the output is complete iff every step succeeds, and otherwise ends with the error of the first failing step (the pipeline shape shared by lines 71, 90, 112, 126, 167, 182, 203, 242, 263) |
| `Batches.ProcessSplits` | src/main/java/org/springframework/data/redis/connection/lettuce/LettuceReactiveStreamCommands.java:263-269 | no state is carried between commands: when every step of a prefix succeeds, processing prefix and rest together emits the prefix's outputs and steps followed by the rest's, and ends as the rest ends (the pipeline shape shared by lines 71, 90, 112, 126, 167, 182, 203, 242, 263) |

`ToConsumer` (lines 280-284) has no contract of its own. `TranslateRead` states what it
builds: a native consumer with exactly the consumer's group and name.

## Left out

- Reactor semantics: `Flux`, `Publisher`, backpressure, laziness and the scheduling difference between `concatMap` and `map`. A batch is a sequence and is processed in input order. Record streams are finite sequences supplied by the engine.
- `connection.execute` and `executeDedicated` internals (acquiring, releasing and cancelling connections). Only the choice of channel is modelled.
- `RangeConverter.toRange`, `LettuceConverters.toLimit` and `StreamConverters.toReadArgs` are not part of this model. The native call records the domain value they convert (`RangeOf`, `LimitOf`, `ReadArgsOf`).
- `ByteUtils.getByteBuffer` encoding is not modelled. Group and consumer names stay strings, and keys and bodies are byte sequences.
- `TranslateXGroup`: the code has no null assertion for the consumer name of DELETE_CONSUMER. The null name fails inside `ByteUtils.getByteBuffer`, which is not part of this model, before the call is built. The model reports this as the `NullConsumerName` violation.
- The `GroupCommandAction` enumeration is not part of this model. Actions other than CREATE, DELETE_CONSUMER and DESTROY are `OtherAction`, and a null action is not modelled.
- `RecordId` is not part of this model. Its auto-generate sentinel is taken to be the id value `"*"`, and `RecordId.of` is taken to wrap the string unchanged.
- Run: a reply depends only on the native call it answers, so identical calls in one batch get identical replies (two equal XADDs get the same id, a repeated XACK the same count) and no reply reflects an earlier call; the server state that would make them differ is not modelled.
- Transport failures of a native call, and the Redis server's own behaviour (result ordering, pending entries, trimming), are out of scope. The engine's replies are parameters.
- The constructor's null check on the connection (line 60).
