/** The forge panel of the landing page (VoxelForge.tsx): its state, the
    initial mascot it mounts with, the generate button's enable condition
    and the `handleGenerate` exchange.

    `fetch` and `response.json()` are foreign: what they produced for this
    request is an input value (`Reply`). The two setters that run before the
    first `await` render while the request is pending; the rest run in one
    synchronous stretch after the last `await` and render together. So one
    call of the handler is a function from the state before to the state
    shown while waiting and the state after, together with what happened on
    the way (`Step`). */
module ForgeClient {
  import opened Js
  import opened Voxels

  datatype Mode = Create | Morph

  datatype Status = Idle | Analyzing | Assembling | Ready

  /** The component's state hooks. The mascot is whatever JSON values were
      last accepted: the client does not check that they look like voxels. */
  datatype State = State(prompt: string, mode: Mode, mascot: seq<Json>, status: Status,
                         generating: bool)

  /** What the network produced for the request: `fetch` rejected, or a
      response with its `ok` flag and its body read by `response.json()`
      (`None` when that read threw). */
  datatype Reply = FetchRejected | Received(ok: bool, body: Option<Json>)

  /** Why the `try` block threw, as the `catch` reports it. */
  datatype Failure =
    | Rejected(message: string)  // `new Error(text)` with a string text
    | RejectedWith(value: Json)  // `new Error(value)` with a truthy non-string `data.error`
    | Unconvertible              // `new Error(value)` threw converting `data.error` to text
    | NullBody                   // `data.error` read on a null body: a TypeError
    | UnreadableBody             // `response.json()` threw
    | FetchFailed                // `fetch` rejected

  /** One run of the handler: the request body sent (if any), the state
      shown while it is in flight, the statuses set in order, the failure
      reported (if any) and the state after. */
  datatype Step = Step(request: Option<Json>, pending: Option<State>, statuses: seq<Status>,
                       failure: Option<Failure>, after: State)

  const Primary: string := "#ff4d4d"

  function ModeName(m: Mode): string {
    match m
    case Create => "create"
    case Morph => "morph"
  }

  /** `JSON.stringify` input for the request: the prompt, the current model
      only when morphing, and the mode. */
  function RequestBody(s: State): (j: Json)
    ensures Get(j, "prompt") == Some(JString(s.prompt))
    ensures Get(j, "mode") == Some(JString(ModeName(s.mode)))
    ensures Get(j, "currentModel") == Some(if s.mode == Morph then JArray(s.mascot) else JNull)
  {
    var model := if s.mode == Morph then JArray(s.mascot) else JNull;
    var members := [("prompt", JString(s.prompt)), ("currentModel", model),
                    ("mode", JString(ModeName(s.mode)))];
    assert members[..2][..1][0].0 == "prompt";
    assert members[1].0 != "prompt" by { assert members[1].0[0] == 'c'; }
    assert members[2].0 != "prompt" && members[2].0 != "currentModel" by {
      assert members[2].0[0] == 'm';
    }
    assert members[..2][1].0 == "currentModel";
    JObject(members)
  }

  /** The generate button: `disabled={isGenerating || !prompt}`. */
  predicate CanGenerate(s: State)
    ensures CanGenerate(s) <==> !s.generating && Truthy(Some(JString(s.prompt)))
  {
    !s.generating && s.prompt != ""
  }

  /** The `finally` block: whatever happened, generation ends in Ready. */
  function Settle(s: State, mascot: seq<Json>): (t: State)
    ensures t.status == Ready && !t.generating
    ensures t.prompt == s.prompt && t.mode == s.mode && t.mascot == mascot
  {
    s.(mascot := mascot, status := Ready, generating := false)
  }

  /** What the `catch` sees when the response is not ok: `data.error`, or
      "Forge failed" when that is falsy. */
  function NotOkFailure(data: Json): (f: Failure)
    ensures f.NullBody? <==> data.JNull?
    ensures !data.JNull? && !Truthy(Get(data, "error")) ==> f == Rejected("Forge failed")
    ensures f.Rejected? ==>
              f.message != "" && (f.message == "Forge failed" || Get(data, "error") == Some(JString(f.message)))
    ensures f.RejectedWith? ==>
              Get(data, "error") == Some(f.value) && Truthy(Some(f.value)) && !f.value.JString?
              && !ToStringThrows(f.value)
    ensures f.Unconvertible? <==> !data.JNull? && Get(data, "error").Some? && ToStringThrows(Get(data, "error").value)
    ensures !f.UnreadableBody? && !f.FetchFailed?
  {
    if data.JNull? then NullBody
    else
      var e := Get(data, "error");
      if !Truthy(e) then Rejected("Forge failed")
      else if e.value.JString? then Rejected(e.value.s)
      else if ToStringThrows(e.value) then Unconvertible
      else RejectedWith(e.value)
  }

  /** What the panel shows while the request is in flight: generating, and
      analyzing. */
  function InFlight(s: State): (t: State)
    ensures t.generating && t.status == Analyzing
    ensures t.prompt == s.prompt && t.mode == s.mode && t.mascot == s.mascot
  {
    s.(generating := true, status := Analyzing)
  }

  /** `handleGenerate`. */
  function Generate(s: State, reply: Reply): (r: Step)
    ensures r.request.Some? <==> s.prompt != ""
    ensures r.pending.Some? <==> s.prompt != ""
    ensures s.prompt == "" ==> r.statuses == [] && r.failure.None? && r.after == s
    ensures s.prompt != "" ==>
              && r.request == Some(RequestBody(s))
              && r.pending == Some(InFlight(s))
              && |r.statuses| >= 2 && r.statuses[0] == Analyzing
              && r.statuses[|r.statuses| - 1] == Ready
              && r.after.status == Ready && !r.after.generating
              && r.after.prompt == s.prompt && r.after.mode == s.mode
    ensures r.after.mascot != s.mascot ==>
              reply == Received(true, Some(JArray(r.after.mascot)))
    ensures s.prompt != "" ==> (r.failure.None? <==> reply.Received? && reply.ok && reply.body.Some?)
  {
    if s.prompt == "" then Step(None, None, [], None, s)
    else
      var (statuses, failure, mascot) := Await(s.mascot, reply);
      Step(Some(RequestBody(s)), Some(InFlight(s)), statuses, failure, Settle(s, mascot))
  }

  /** The `try` block from `fetch` on, with its `catch`: the statuses set
      (the `finally` block's Ready included), the failure reported and the
      mascot kept. Only an ok array reply replaces the mascot, and only an
      ok readable reply avoids a failure. */
  function Await(mascot: seq<Json>, reply: Reply): (r: (seq<Status>, Option<Failure>, seq<Json>))
    ensures |r.0| >= 2 && r.0[0] == Analyzing && r.0[|r.0| - 1] == Ready
    ensures r.1.None? <==> reply.Received? && reply.ok && reply.body.Some?
    ensures r.2 != mascot ==> reply == Received(true, Some(JArray(r.2)))
    ensures r.1.Some? ==> r.0 == [Analyzing, Ready] && r.2 == mascot
  {
    match reply
    case FetchRejected => ([Analyzing, Ready], Some(FetchFailed), mascot)
    case Received(ok, body) =>
      match body
      case None => ([Analyzing, Ready], Some(UnreadableBody), mascot)
      case Some(data) =>
        if !ok then ([Analyzing, Ready], Some(NotOkFailure(data)), mascot)
        else ([Analyzing, Assembling, Ready], None, if data.JArray? then data.items else mascot)
  }

  /** An empty prompt makes no request and changes nothing. */
  lemma EmptyPromptNoOp(s: State, reply: Reply)
    requires s.prompt == ""
    ensures Generate(s, reply) == Step(None, None, [], None, s)
  {
  }

  /** While a request is in flight the button is disabled, so the panel
      cannot send a second one; it is enabled again once the handler has
      settled. */
  lemma DisabledWhileInFlight(s: State, reply: Reply)
    requires s.prompt != ""
    ensures !CanGenerate(Generate(s, reply).pending.value)
    ensures CanGenerate(Generate(s, reply).after)
  {
  }

  /** Pressing an enabled button always sends the request. */
  lemma EnabledSends(s: State, reply: Reply)
    requires CanGenerate(s)
    ensures Generate(s, reply).request == Some(RequestBody(s))
  {
  }

  /** An ok response carrying an array replaces the mascot with it, after
      passing through Assembling. */
  lemma ReplacesOnArray(s: State, items: seq<Json>)
    requires s.prompt != ""
    ensures Generate(s, Received(true, Some(JArray(items)))).after.mascot == items
    ensures Generate(s, Received(true, Some(JArray(items)))).statuses
         == [Analyzing, Assembling, Ready]
    ensures Generate(s, Received(true, Some(JArray(items)))).failure.None?
  {
  }

  /** An ok response whose body is not an array is accepted silently and
      leaves the mascot alone. */
  lemma KeepsOnNonArray(s: State, data: Json)
    requires s.prompt != "" && !data.JArray?
    ensures Generate(s, Received(true, Some(data))).after.mascot == s.mascot
    ensures Generate(s, Received(true, Some(data))).failure.None?
  {
  }

  /** Every failure leaves the mascot as it was, skips Assembling and
      reports why. */
  lemma FailureKeepsMascot(s: State, reply: Reply)
    requires s.prompt != ""
    requires Generate(s, reply).failure.Some?
    ensures Generate(s, reply).after == Settle(s, s.mascot)
    ensures Generate(s, reply).statuses == [Analyzing, Ready]
  {
  }

  /** A response that is not ok reports its `error` text, or "Forge failed"
      when it has none. */
  lemma NotOkReport(s: State, data: Json)
    requires s.prompt != "" && !data.JNull?
    ensures var f := Generate(s, Received(false, Some(data))).failure;
            && (!Truthy(Get(data, "error")) ==> f == Some(Rejected("Forge failed")))
            && (forall m :: Get(data, "error") == Some(JString(m)) && m != "" ==>
                  f == Some(Rejected(m)))
  {
  }

  /** The handler does not look at `isGenerating`: starting from a busy or
      an idle state makes no difference to the outcome. Only the disabled
      button keeps a second request from being sent. */
  lemma IgnoresBusyFlag(s: State, reply: Reply)
    requires s.prompt != ""
    ensures Generate(s.(generating := true), reply).after
         == Generate(s.(generating := false), reply).after
    ensures Generate(s.(generating := true), reply).request
         == Generate(s.(generating := false), reply).request
  {
  }

  // ---------------------------------------------------------------------
  // The initial mascot

  /** x from -1 to 1, y from 0 to 1, z from -1 to 1, all primary red. */
  function InitialBox(color: string): Box {
    Box(-1, 1, 0, 1, -1, 1, color, Everything)
  }

  function VoxelJson(v: Voxel): (j: Json)
    ensures Get(j, "color") == Some(JString(v.color))
  {
    JObject([("x", JNumber(v.x)), ("y", JNumber(v.y)), ("z", JNumber(v.z)),
             ("color", JString(v.color))])
  }

  function VoxelsJson(vs: seq<Voxel>): (r: seq<Json>)
    ensures |r| == |vs|
    ensures forall i :: 0 <= i < |vs| ==> r[i] == VoxelJson(vs[i])
  {
    if |vs| == 0 then [] else [VoxelJson(vs[0])] + VoxelsJson(vs[1..])
  }

  /** An integer between -1 and 1 is one of -1, 0, 1. */
  lemma Unit3(r: real)
    ensures IsInt(r) && -1.0 <= r <= 1.0 <==> r == -1.0 || r == 0.0 || r == 1.0
  {
    if IsInt(r) && -1.0 <= r <= 1.0 {
      IntBelow(r, 2);
      if r < 1.0 {
        IntBelow(r, 1);
        if r < 0.0 {
          IntBelow(r, 0);
        }
      }
    }
  }

  lemma Unit2(r: real)
    ensures IsInt(r) && 0.0 <= r <= 1.0 <==> r == 0.0 || r == 1.0
  {
    if IsInt(r) && 0.0 <= r <= 1.0 {
      IntBelow(r, 2);
      if r < 1.0 {
        IntBelow(r, 1);
      }
    }
  }

  /** The 3 x 2 x 3 block: 18 voxels, none repeated, exactly the red cubes
      with x and z in {-1, 0, 1} and y in {0, 1}. */
  lemma InitialBlock(color: string)
    ensures |Cells(InitialBox(color))| == 18
    ensures Distinct(Cells(InitialBox(color)))
    ensures forall v :: v in Cells(InitialBox(color)) <==>
              && v.color == color
              && (v.x == -1.0 || v.x == 0.0 || v.x == 1.0)
              && (v.y == 0.0 || v.y == 1.0)
              && (v.z == -1.0 || v.z == 0.0 || v.z == 1.0)
  {
    var b := InitialBox(color);
    CellsCount(b);
    CellsDistinct(b);
    forall v
      ensures v in Cells(b) <==>
              && v.color == color
              && (v.x == -1.0 || v.x == 0.0 || v.x == 1.0)
              && (v.y == 0.0 || v.y == 1.0)
              && (v.z == -1.0 || v.z == 0.0 || v.z == 1.0)
    {
      CellsMembers(b, v);
      Unit3(v.x);
      Unit2(v.y);
      Unit3(v.z);
    }
  }

  /** The mount effect: three nested loops push the block in `color` (the
      component passes `Primary`), then the mascot is set to it. The other
      hooks keep their initial values, so the button starts disabled. */
  method Mount(color: string) returns (s: State)
    ensures s.prompt == "" && s.mode == Create && s.status == Idle && !s.generating
    ensures s.mascot == VoxelsJson(Cells(InitialBox(color)))
    ensures |s.mascot| == 18
    ensures !CanGenerate(s)
  {
    var initial := AppendBox([], InitialBox(color));
    assert initial == Cells(InitialBox(color));
    InitialBlock(color);
    var mascot := VoxelsJson(initial);
    assert |mascot| == 18;
    s := State("", Create, mascot, Idle, false);
  }
}
