/** Properties of the adapter that relate several calls: the order in which
    each operation checks its required fields, which fields a group command
    ignores, and how a batch splits at a command boundary. */
module StreamCommandProperties {
  import opened Wrappers
  import opened StreamTypes
  import opened LettuceNative
  import opened LettuceReactiveStreamCommands
  import opened Batches

  /** One null check: whether the field is present, and the violation
      reported when it is not. */
  datatype Requirement = Requirement(present: bool, violation: Violation)

  /** The checks each operation makes before building its call, in the
      order it makes them. An unknown group action always fails. */
  function RequiredFields(op: Operation, cmd: Command): seq<Requirement>
    requires Accepts(op, cmd)
  {
    match op
    case XAck =>
      [Requirement(cmd.key.Some?, NullKey), Requirement(cmd.group.Some?, NullGroup),
       Requirement(cmd.recordIds.Some?, NullRecordIds)]
    case XAdd =>
      [Requirement(cmd.key.Some?, NullKey), Requirement(cmd.body.Some?, NullBody)]
    case XDel =>
      [Requirement(cmd.key.Some?, NullKey), Requirement(cmd.recordIds.Some?, NullRecordIds)]
    case XGroup =>
      [Requirement(cmd.key.Some?, NullKey), Requirement(cmd.groupName.Some?, NullGroupName)]
      + ActionRequirements(cmd)
    case XLen =>
      [Requirement(cmd.key.Some?, NullKey)]
    case XRange =>
      [Requirement(cmd.key.Some?, NullKey), Requirement(cmd.range.Some?, NullRange),
       Requirement(cmd.limit.Some?, NullLimit)]
    case XRevRange =>
      [Requirement(cmd.key.Some?, NullKey), Requirement(cmd.range.Some?, NullRange),
       Requirement(cmd.limit.Some?, NullLimit)]
    case XTrim =>
      [Requirement(cmd.key.Some?, NullKey), Requirement(cmd.count.Some?, NullCount)]
    case Read =>
      [Requirement(cmd.streamOffsets.Some?, NullStreamOffsets),
       Requirement(cmd.readOptions.Some?, NullReadOptions)]
  }

  function ActionRequirements(cmd: Command): seq<Requirement>
    requires cmd.GroupCommand?
  {
    match cmd.action
    case Create => [Requirement(cmd.readOffset.Some?, NullReadOffset)]
    case DeleteConsumer => [Requirement(cmd.consumerName.Some?, NullConsumerName)]
    case Destroy => []
    case OtherAction(_) => [Requirement(false, UnknownGroupCommand(cmd.action))]
  }

  /** The violation of the first check that fails, if any fails. */
  function FirstMissing(reqs: seq<Requirement>): (v: Option<Violation>)
    ensures v.None? <==> forall i :: 0 <= i < |reqs| ==> reqs[i].present
    ensures v.Some? ==> exists i :: 0 <= i < |reqs| && !reqs[i].present && reqs[i].violation == v.value
                                     && forall j :: 0 <= j < i ==> reqs[j].present
  {
    if reqs == [] then None
    else if !reqs[0].present then Some(reqs[0].violation)
    else FirstMissing(reqs[1..])
  }

  /** Every operation refuses a command exactly when one of its checks fails,
      and reports the violation of the first check that fails. */
  lemma TranslateChecksInOrder(op: Operation, cmd: Command)
    requires Accepts(op, cmd)
    ensures Translate(op, cmd).Failure? <==> FirstMissing(RequiredFields(op, cmd)).Some?
    ensures Translate(op, cmd).Failure? ==>
              Translate(op, cmd).error == FirstMissing(RequiredFields(op, cmd)).value
  {
    var r := RequiredFields(op, cmd);
    match op
    case XAck => FirstOfThree(r); assert ReportsFirstMissing(TranslateXAck(cmd), r);
    case XAdd => FirstOfTwo(r); assert ReportsFirstMissing(TranslateXAdd(cmd), r);
    case XDel => FirstOfTwo(r); assert ReportsFirstMissing(TranslateXDel(cmd), r);
    case XGroup => GroupChecksInOrder(cmd);
    case XLen => FirstOfOne(r); assert ReportsFirstMissing(TranslateXLen(cmd), r);
    case XRange => FirstOfThree(r); assert ReportsFirstMissing(TranslateRange(cmd, false), r);
    case XRevRange => FirstOfThree(r); assert ReportsFirstMissing(TranslateRange(cmd, true), r);
    case XTrim => FirstOfTwo(r); assert ReportsFirstMissing(TranslateXTrim(cmd), r);
    case Read => FirstOfTwo(r); assert ReportsFirstMissing(TranslateRead(cmd), r);
  }

  predicate ReportsFirstMissing(t: Result<Dispatch, Violation>, reqs: seq<Requirement>) {
    (t.Failure? <==> FirstMissing(reqs).Some?)
    && (t.Failure? ==> t.error == FirstMissing(reqs).value)
  }

  lemma GroupChecksInOrder(cmd: Command)
    requires cmd.GroupCommand?
    ensures ReportsFirstMissing(TranslateXGroup(cmd), RequiredFields(XGroup, cmd))
  {
    var r := RequiredFields(XGroup, cmd);
    if cmd.action == Destroy { FirstOfTwo(r); } else { FirstOfThree(r); }
  }

  lemma FirstOfOne(r: seq<Requirement>)
    requires |r| == 1
    ensures FirstMissing(r) == if !r[0].present then Some(r[0].violation) else None
  {
  }

  lemma FirstOfTwo(r: seq<Requirement>)
    requires |r| == 2
    ensures FirstMissing(r) == if !r[0].present then Some(r[0].violation)
                               else if !r[1].present then Some(r[1].violation) else None
  {
  }

  lemma FirstOfThree(r: seq<Requirement>)
    requires |r| == 3
    ensures FirstMissing(r) == if !r[0].present then Some(r[0].violation)
                               else if !r[1].present then Some(r[1].violation)
                               else if !r[2].present then Some(r[2].violation) else None
  {
  }

  /** The group call of each action depends only on the fields that action
      uses: DESTROY on the key and group name alone, CREATE not on the
      consumer name, DELETE_CONSUMER not on the read offset. */
  lemma GroupCallIgnoresUnusedFields(c1: Command, c2: Command)
    requires c1.GroupCommand? && c2.GroupCommand?
    requires c1.key == c2.key && c1.groupName == c2.groupName && c1.action == c2.action
    ensures c1.action == Destroy ==> TranslateXGroup(c1) == TranslateXGroup(c2)
    ensures c1.action == Create && c1.readOffset == c2.readOffset ==>
              TranslateXGroup(c1) == TranslateXGroup(c2)
    ensures c1.action == DeleteConsumer && c1.consumerName == c2.consumerName ==>
              TranslateXGroup(c1) == TranslateXGroup(c2)
  {
  }

  /** The adapter keeps no state between commands: when a prefix of the
      batch passes validation, the batch's output is the prefix's output
      followed by the output of the rest. */
  lemma RunSplits(op: Operation, a: seq<Command>, b: seq<Command>, engine: Engine)
    requires AllAccepted(op, a) && AllAccepted(op, b)
    requires Run(op, a, engine).error.None?
    ensures AllAccepted(op, a + b)
    ensures Run(op, a + b, engine)
            == Processed(Run(op, a, engine).outputs + Run(op, b, engine).outputs,
                         Run(op, a, engine).steps + Run(op, b, engine).steps,
                         Run(op, b, engine).error)
  {
    ProcessSplits(a, b, Step(op), Respond(engine));
  }
}
