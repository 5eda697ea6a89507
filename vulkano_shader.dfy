/**
 * The blend-mode pipeline table of the vulkano backend
 * (`src/graphics/vulkano_shader.rs`): one graphics pipeline per blend mode,
 * the shader program's active mode, and the loop of `create_shader` that
 * fills a table.
 */
module VulkanoShader {
  import opened Outcomes
  import opened Types
  import opened Errors

  /** An `Arc` of a built graphics pipeline, known by its identity. */
  type Pipeline = nat

  /** vulkano's `AttachmentBlend`; only its alpha-blending preset is ever built. */
  datatype AttachmentBlend = AlphaBlending

  /** `From<BlendMode> for AttachmentBlend`: `None` is the `unimplemented!` panic of every mode but `Alpha`. */
  function AttachmentBlendFor(mode: BlendMode): (r: Option<AttachmentBlend>)
    ensures r.Some? <==> mode == Alpha
    ensures r.Some? ==> r.value == AlphaBlending
  {
    match mode
    case Alpha => Some(AlphaBlending)
    case _ => None
  }

  const MissingPipelineMessage := "Could not find a pipeline for the specified shader and BlendMode"

  /** `PipelineSet`: a hash map from blend mode to pipeline. */
  class PipelineSet {
    var pipelines: map<BlendMode, Pipeline>

    /** `PipelineSet::new(capacity)`: the capacity is only a hint; the table starts empty. */
    constructor (capacity: nat)
      ensures pipelines == map[]
    {
      pipelines := map[];
    }

    /** `insert_mode`: the entry for `mode` is (re)placed, every other entry kept. */
    method InsertMode(mode: BlendMode, pipeline: Pipeline)
      modifies this`pipelines
      ensures pipelines == old(pipelines)[mode := pipeline]
      ensures mode in pipelines && pipelines[mode] == pipeline
      ensures forall m :: m != mode ==> (m in pipelines <==> m in old(pipelines))
      ensures forall m :: m != mode && m in pipelines ==> pipelines[m] == old(pipelines)[m]
    {
      pipelines := pipelines[mode := pipeline];
    }

    /** `get_mode`: the pipeline for `mode`, or a render error when none was inserted. */
    function GetMode(mode: BlendMode): (r: Result<Pipeline, GameError>)
      reads this`pipelines
      ensures r.Ok? <==> mode in pipelines
      ensures r.Ok? ==> r.value == pipelines[mode]
      ensures r.Err? ==> r.error == RenderError(MissingPipelineMessage)
    {
      if mode in pipelines then Ok(pipelines[mode]) else Err(RenderError(MissingPipelineMessage))
    }
  }

  /** The table that inserting `pipelines[i]` for `modes[i]`, in order, builds: a later duplicate wins. */
  function TableOf(modes: seq<BlendMode>, pipelines: seq<Pipeline>): (t: map<BlendMode, Pipeline>)
    requires |modes| == |pipelines|
    ensures t.Keys == set i | 0 <= i < |modes| :: modes[i]
  {
    if |modes| == 0 then map[]
    else TableOf(modes[..|modes| - 1], pipelines[..|modes| - 1])[modes[|modes| - 1] := pipelines[|modes| - 1]]
  }

  /** The pipeline a table holds for a mode is the one built for its last occurrence. */
  lemma {:induction false} TableOfLastWins(modes: seq<BlendMode>, pipelines: seq<Pipeline>, i: nat)
    requires |modes| == |pipelines|
    requires i < |modes|
    requires forall j :: i < j < |modes| ==> modes[j] != modes[i]
    ensures TableOf(modes, pipelines)[modes[i]] == pipelines[i]
    decreases |modes|
  {
    if i < |modes| - 1 {
      var n := |modes| - 1;
      assert forall j :: i < j < n ==> modes[..n][j] == modes[j];
      TableOfLastWins(modes[..n], pipelines[..n], i);
      assert modes[..n][i] == modes[i] && pipelines[..n][i] == pipelines[i];
    }
  }

  /** What `create_shader` reaches: a filled table (which the source then drops), or the panic on a mode. */
  datatype ShaderOutcome = Built(table: map<BlendMode, Pipeline>) | PanickedOn(mode: BlendMode)

  /** The modes `create_shader` builds: the given list, or only `Alpha` when none is given. */
  function RequestedModes(blendModes: Option<seq<BlendMode>>): (modes: seq<BlendMode>)
    ensures blendModes.None? ==> modes == [Alpha]
  {
    blendModes.GetOr([Alpha])
  }

  /**
   * The loop of `create_shader`. `built[i]` is the pipeline the builder
   * returns for the i-th requested mode; shader loading and pipeline
   * building are taken to succeed. The mode's `AttachmentBlend` is computed
   * before the pipeline is built, so the first non-`Alpha` mode panics.
   */
  method CreateShader(blendModes: Option<seq<BlendMode>>, built: seq<Pipeline>) returns (outcome: ShaderOutcome)
    requires |built| == |RequestedModes(blendModes)|
    ensures var modes := RequestedModes(blendModes);
      outcome.Built? <==> forall i :: 0 <= i < |modes| ==> modes[i] == Alpha
    ensures outcome.Built? ==> outcome.table == TableOf(RequestedModes(blendModes), built)
    ensures outcome.PanickedOn? ==> outcome.mode != Alpha && outcome.mode in RequestedModes(blendModes)
  {
    var modes := RequestedModes(blendModes);
    var table := new PipelineSet(|modes|);
    var i := 0;
    while i < |modes|
      invariant 0 <= i <= |modes|
      invariant table.pipelines == TableOf(modes[..i], built[..i])
      invariant forall j :: 0 <= j < i ==> modes[j] == Alpha
    {
      var blend := AttachmentBlendFor(modes[i]);
      if blend.None? {
        return PanickedOn(modes[i]);
      }
      table.InsertMode(modes[i], built[i]);
      assert modes[..i + 1][..i] == modes[..i] && built[..i + 1][..i] == built[..i];
      i := i + 1;
    }
    assert modes[..i] == modes && built[..i] == built;
    return Built(table.pipelines);
  }

  /** With no modes given, `create_shader` builds exactly one pipeline, for `Alpha`. */
  lemma DefaultShaderHasOnlyAlpha(p: Pipeline)
    ensures TableOf(RequestedModes(None), [p]) == map[Alpha := p]
  {
    assert RequestedModes(None) == [Alpha];
    assert [Alpha][..0] == [] && [p][..0] == [];
  }

  /** `ShaderProgram`: its pipelines and the mode it draws with. */
  class ShaderProgram {
    const pipelines: PipelineSet
    var activeBlendMode: BlendMode

    constructor (pipelines: PipelineSet, activeBlendMode: BlendMode)
      ensures this.pipelines == pipelines && this.activeBlendMode == activeBlendMode
    {
      this.pipelines := pipelines;
      this.activeBlendMode := activeBlendMode;
    }

    /** `set_blend_mode`: switches only to a mode that has a pipeline; otherwise the error of `get_mode`. */
    method SetBlendMode(mode: BlendMode) returns (r: Result<(), GameError>)
      modifies this`activeBlendMode
      ensures r.Ok? <==> mode in pipelines.pipelines
      ensures r.Ok? ==> GetBlendMode() == mode
      ensures r.Err? ==> GetBlendMode() == old(GetBlendMode()) && r.error == RenderError(MissingPipelineMessage)
    {
      var found := pipelines.GetMode(mode);
      if found.Err? {
        return Err(found.error);
      }
      activeBlendMode := mode;
      return Ok(());
    }

    /** `get_blend_mode`. */
    function GetBlendMode(): BlendMode
      reads this`activeBlendMode
    {
      activeBlendMode
    }
  }
}
