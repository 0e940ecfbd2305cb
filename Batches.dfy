/** The pipeline every adapter operation runs over its input commands: each
    command is validated and translated by `step`, and a command that passes
    yields one output pairing it with what `respond` makes of its step. An
    exception in the pipeline ends the whole output sequence, so the first
    command whose step fails ends the processing with that error. */
module Batches {
  import opened Wrappers

  /** The outputs emitted, the step value behind each, and the error, if
      any, that ended the sequence. */
  datatype Processed<R, D, E> = Processed(outputs: seq<R>, steps: seq<D>, error: Option<E>)

  ghost predicate Defined<C, D, E>(step: C --> Result<D, E>, cmds: seq<C>) {
    forall i :: 0 <= i < |cmds| ==> step.requires(cmds[i])
  }

  function Process<C, D, R, E>(cmds: seq<C>, step: C --> Result<D, E>, respond: (C, D) -> R): (p: Processed<R, D, E>)
    requires Defined(step, cmds)
    ensures |p.outputs| == |p.steps| <= |cmds|
  {
    if cmds == [] then Processed([], [], None)
    else
      match step(cmds[0])
      case Failure(e) => Processed([], [], Some(e))
      case Success(d) =>
        var rest := Process(cmds[1..], step, respond);
        Processed([respond(cmds[0], d)] + rest.outputs, [d] + rest.steps, rest.error)
  }

  /** Output i pairs command i with its step; the output is complete exactly
      when every step succeeds, and otherwise ends with the error of the
      first step that fails. */
  lemma {:induction false} ProcessCorrect<C, D, R, E>(cmds: seq<C>, step: C --> Result<D, E>, respond: (C, D) -> R)
    requires Defined(step, cmds)
    ensures var p := Process(cmds, step, respond);
            && (forall i :: 0 <= i < |p.outputs| ==>
                  step(cmds[i]) == Success(p.steps[i]) && p.outputs[i] == respond(cmds[i], p.steps[i]))
            && (p.error.None? <==> |p.outputs| == |cmds|)
            && (p.error.Some? ==> step(cmds[|p.outputs|]) == Failure(p.error.value))
  {
    if cmds != [] && step(cmds[0]).Success? {
      var rest := cmds[1..];
      assert Defined(step, rest);
      ProcessCorrect(rest, step, respond);
      var p, q := Process(cmds, step, respond), Process(rest, step, respond);
      forall i | 1 <= i < |p.outputs|
        ensures step(cmds[i]) == Success(p.steps[i]) && p.outputs[i] == respond(cmds[i], p.steps[i])
      {
        assert cmds[i] == rest[i - 1];
        assert p.steps[i] == q.steps[i - 1];
        assert p.outputs[i] == q.outputs[i - 1];
      }
      if p.error.Some? {
        assert cmds[|p.outputs|] == rest[|q.outputs|];
      }
    }
  }

  /** No state is carried from one command to the next: when every step of
      a prefix succeeds, processing the whole sequence emits the prefix's
      outputs followed by those of the rest. */
  lemma {:induction false} ProcessSplits<C, D, R, E>(a: seq<C>, b: seq<C>, step: C --> Result<D, E>, respond: (C, D) -> R)
    requires Defined(step, a) && Defined(step, b)
    requires Process(a, step, respond).error.None?
    ensures Defined(step, a + b)
    ensures Process(a + b, step, respond)
            == Processed(Process(a, step, respond).outputs + Process(b, step, respond).outputs,
                         Process(a, step, respond).steps + Process(b, step, respond).steps,
                         Process(b, step, respond).error)
  {
    assert Defined(step, a + b) by {
      forall i | 0 <= i < |a + b| ensures step.requires((a + b)[i]) {
        if i < |a| { assert (a + b)[i] == a[i]; } else { assert (a + b)[i] == b[i - |a|]; }
      }
    }
    if a == [] {
      assert a + b == b;
    } else {
      var c, rest := a[0], a[1..];
      assert (a + b)[0] == c;
      assert (a + b)[1..] == rest + b;
      assert Defined(step, rest);
      ProcessSplits(rest, b, step, respond);
      var d := step(c).value;
      var p, q := Process(rest, step, respond), Process(b, step, respond);
      ConsAssociates(respond(c, d), p.outputs, q.outputs);
      ConsAssociates(d, p.steps, q.steps);
    }
  }

  lemma ConsAssociates<T>(x: T, s: seq<T>, t: seq<T>)
    ensures [x] + (s + t) == ([x] + s) + t
  {
  }
}
