/** Model of ezMsaaResolvePass (RendererCore/Pipeline/Implementation/Passes/
    MsaaResolvePass.cpp): the render-pipeline pass that resolves a
    multisampled input texture into a single-sampled output. What is modelled
    is the pass's own state (whether the input is a depth target, and its
    sample count), the description of the output texture it derives from the
    input, and which resolve path Execute takes. */
module MsaaResolvePass {
  import Wrappers

  /** ezGALMSAASampleCount */
  datatype MsaaSampleCount = None | TwoSamples | FourSamples | EightSamples

  /** An ezGALResourceFormat enumerator, by value. */
  type ResourceFormat = nat

  /** ezGALTextureCreationDescription: the fields the pass copies, with the two
      it looks at (format and sample count) spelled out. */
  datatype TextureDescription = TextureDescription(
    width: nat,
    height: nat,
    arraySize: nat,
    mipLevelCount: nat,
    format: ResourceFormat,
    sampleCount: MsaaSampleCount)

  /** A connection of the pipeline (ezRenderPipelinePassConnection), reduced
      to the handle of its texture. */
  datatype Connection = Connection(texture: nat)

  /** What Execute does once both connections exist: a shader-based depth
      resolve (with the stored sample count) or a plain texture resolve. */
  datatype ResolveAction =
    | NoResolve
    | DepthResolve(source: nat, target: nat, samples: MsaaSampleCount)
    | TextureResolve(source: nat, target: nat)

  /** The output description: the input unchanged except that it is no longer
      multisampled. */
  function ResolvedDescription(d: TextureDescription): (r: TextureDescription)
    ensures r.sampleCount == None
    ensures r.(sampleCount := d.sampleCount) == d
  {
    d.(sampleCount := None)
  }

  class MsaaResolvePass {
    /** m_bIsDepth */
    var isDepth: bool
    /** m_MsaaSampleCount */
    var msaaSampleCount: MsaaSampleCount
    /** m_PinInput.m_uiInputIndex and m_PinOutput.m_uiOutputIndex, the slots
        the pipeline assigned to the two pins. */
    const inputIndex: nat
    const outputIndex: nat

    /** A new pass is not a depth pass and has no sample count yet. */
    constructor (inputIndex: nat, outputIndex: nat)
      ensures !isDepth && msaaSampleCount == None
      ensures this.inputIndex == inputIndex && this.outputIndex == outputIndex
    {
      isDepth := false;
      msaaSampleCount := None;
      this.inputIndex := inputIndex;
      this.outputIndex := outputIndex;
    }

    /** GetRenderTargetDescriptions: fails without touching anything when the
        input pin is not connected or the input is not multisampled; otherwise
        records whether the input is a depth format and its sample count, and
        writes the resolved description into the output pin's slot only.
        `isDepthFormat` is ezGALResourceFormat::IsDepthFormat. */
    method GetRenderTargetDescriptions(inputs: seq<Wrappers.Option<TextureDescription>>,
                                       outputs: array<TextureDescription>,
                                       isDepthFormat: ResourceFormat -> bool) returns (ok: bool)
      requires inputIndex < |inputs| && outputIndex < outputs.Length
      modifies this, outputs
      ensures ok <==> inputs[inputIndex].Some? && inputs[inputIndex].value.sampleCount != None
      ensures !ok ==> isDepth == old(isDepth) && msaaSampleCount == old(msaaSampleCount)
                      && outputs[..] == old(outputs[..])
      ensures ok ==> var input := inputs[inputIndex].value;
                     && isDepth == isDepthFormat(input.format)
                     && msaaSampleCount == input.sampleCount
                     && outputs[..] == old(outputs[..])[outputIndex := ResolvedDescription(input)]
    {
      var input := inputs[inputIndex];
      if input.None? {
        return false;
      }
      if input.value.sampleCount == None {
        return false;
      }
      isDepth := isDepthFormat(input.value.format);
      msaaSampleCount := input.value.sampleCount;
      outputs[outputIndex] := ResolvedDescription(input.value);
      ok := true;
    }

    /** Execute: nothing happens unless both the input and the output are
        connected; then a depth input takes the shader resolve with the stored
        sample count, any other input the plain texture resolve. */
    method Execute(inputs: seq<Wrappers.Option<Connection>>, outputs: seq<Wrappers.Option<Connection>>) returns (action: ResolveAction)
      requires inputIndex < |inputs| && outputIndex < |outputs|
      ensures action == NoResolve <==> inputs[inputIndex].None? || outputs[outputIndex].None?
      ensures action.DepthResolve? ==> isDepth && action.samples == msaaSampleCount
      ensures action.TextureResolve? ==> !isDepth
      ensures action != NoResolve ==> action.source == inputs[inputIndex].value.texture
                                      && action.target == outputs[outputIndex].value.texture
    {
      var input, output := inputs[inputIndex], outputs[outputIndex];
      if input.None? || output.None? {
        return NoResolve;
      }
      if isDepth {
        action := DepthResolve(input.value.texture, output.value.texture, msaaSampleCount);
      } else {
        action := TextureResolve(input.value.texture, output.value.texture);
      }
    }
  }
}
