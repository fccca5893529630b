/** The pass-nesting rule the backend enforces on a command encoder's
    recording: commands that configure or draw belong inside a pass, copies
    and pass beginnings outside one, and passes do not nest. The recording
    layer never checks this itself; the model uses it to state that the
    command sequences it records are well scoped. */
module Scopes {
  import opened Gpu

  datatype Scope = Outside | InRender | InCompute | Invalid

  /** The scope after recording `c` in scope `s`. */
  function Step(s: Scope, c: Cmd): Scope {
    match c
    case BeginRenderPass(_) => if s == Outside then InRender else Invalid
    case BeginComputePass => if s == Outside then InCompute else Invalid
    case End => if s == InRender || s == InCompute then Outside else Invalid
    case CopyBufferToBuffer(_, _, _, _, _) => if s == Outside then Outside else Invalid
    case CopyTextureToTexture(_, _, _) => if s == Outside then Outside else Invalid
    case SetPipeline(_) => if s == InRender || s == InCompute then s else Invalid
    case SetBindGroup(_, _) => if s == InRender || s == InCompute then s else Invalid
    case DispatchWorkgroups(_, _, _) => if s == InCompute then s else Invalid
    case SetVertexBuffer(_, _) => if s == InRender then s else Invalid
    case SetIndexBuffer(_, _) => if s == InRender then s else Invalid
    case Draw(_, _) => if s == InRender then s else Invalid
    case DrawIndexed(_, _) => if s == InRender then s else Invalid
  }

  /** The scope after recording all of `t`, starting in scope `s`. */
  function Run(s: Scope, t: seq<Cmd>): Scope
    decreases |t|
  {
    if t == [] then s else Run(Step(s, t[0]), t[1..])
  }

  /** An encoder's recording is valid when it ends outside every pass. */
  predicate WellScoped(t: seq<Cmd>) {
    Run(Outside, t) == Outside
  }

  lemma {:induction false} InvalidIsFinal(t: seq<Cmd>)
    ensures Run(Invalid, t) == Invalid
    decreases |t|
  {
    if t != [] {
      InvalidIsFinal(t[1..]);
    }
  }

  /** Recording `a` and then `b` is recording `a + b`. */
  lemma {:induction false} RunAppend(s: Scope, a: seq<Cmd>, b: seq<Cmd>)
    ensures Run(s, a + b) == Run(Run(s, a), b)
    decreases |a|
  {
    if a == [] {
      assert a + b == b;
    } else {
      assert (a + b)[0] == a[0];
      assert (a + b)[1..] == a[1..] + b;
      RunAppend(Step(s, a[0]), a[1..], b);
    }
  }

  /** Once the recording violates the rule, nothing recorded later repairs it. */
  lemma InvalidPrefix(a: seq<Cmd>, b: seq<Cmd>)
    requires Run(Outside, a) == Invalid
    ensures Run(Outside, a + b) == Invalid
  {
    RunAppend(Outside, a, b);
    InvalidIsFinal(b);
  }

  /** Beginning a render pass while one is open breaks the rule for good,
      whatever is recorded after it. */
  lemma NestedRenderPassInvalid(t: seq<Cmd>, pass: RenderPassDescriptor, rest: seq<Cmd>)
    requires Run(Outside, t) == InRender
    ensures Run(Outside, t + [BeginRenderPass(pass)] + rest) == Invalid
  {
    RunAppend(Outside, t, [BeginRenderPass(pass)]);
    assert Run(InRender, [BeginRenderPass(pass)]) == Invalid;
    InvalidPrefix(t + [BeginRenderPass(pass)], rest);
  }

  /** Concatenating two well-scoped recordings gives a well-scoped recording. */
  lemma WellScopedAppend(a: seq<Cmd>, b: seq<Cmd>)
    requires WellScoped(a) && WellScoped(b)
    ensures WellScoped(a + b)
  {
    RunAppend(Outside, a, b);
  }
}
