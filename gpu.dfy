// The part of the OpenGL ES context that the phases drive: texture names,
// the texture bound to each texture unit, the colour attachment of each
// framebuffer object, the bound framebuffer, and the draw calls issued. A
// texture's content is kept symbolically: blank, uploaded from the host, or
// the output of a given draw call. The shaders themselves are not part of
// this model; a draw call records the uniforms it was issued with and the
// contents its samplers saw.
module Gpu {

  /** The symbolic content of a texture. */
  datatype Content = Blank | Host(name: string) | Output(draw: nat)

  /** The uniform values a draw call was issued with, one variant per program. */
  datatype Uniforms =
    | Labeling(pass: int, factor: int)
    | LabelingDebug(pass: int, factor: int, debug: int)
    | Reducing(stage: int, direction: int, pass: int, debug: int)
    | Filling(pass: int, fx: int, fy: int)
    | Counting(stage: int, pass: int, fx: int, fy: int, offset: int)
    | Centroiding(stage: int, pass: int, fx: int, fy: int, offset: int)
    | Points(count: nat)

  /**
   * One draw call: the texture it rendered into, the textures its samplers
   * were set to (through their texture units), the contents those held, and
   * the uniforms.
   */
  datatype DrawCall = DrawCall(target: nat, sources: seq<nat>, inputs: seq<Content>, uniforms: Uniforms)

  class Device {
    var textures: map<nat, Content>  // texture name -> content
    var nextName: nat                // the name glGenTextures hands out next
    var units: map<int, nat>         // texture unit -> texture bound to it
    var attachment: map<nat, nat>    // framebuffer -> its colour attachment
    var bound: nat                   // the bound framebuffer; 0 is the window
    var draws: seq<DrawCall>

    /** Every texture name in use was handed out by glGenTextures. */
    ghost predicate Valid()
      reads this
    {
      nextName > 0 && forall t :: t in textures ==> 0 < t < nextName
    }

    constructor ()
      ensures Valid()
      ensures textures == map[] && units == map[] && attachment == map[] && bound == 0 && draws == []
    {
      textures := map[];
      nextName := 1;
      units := map[];
      attachment := map[];
      bound := 0;
      draws := [];
    }

    /**
     * `glActiveTexture(GL_TEXTURE0 + unit)` followed by
     * `createSimpleTexture2D`: a new name, holding the given content, bound
     * to the unit.
     */
    method CreateTexture(unit: int, content: Content) returns (name: nat)
      requires Valid() && !content.Output?
      modifies this
      ensures Valid()
      ensures name !in old(textures) && name > 0
      ensures textures == old(textures)[name := content] && units == old(units)[unit := name]
      ensures attachment == old(attachment) && bound == old(bound) && draws == old(draws)
    {
      name := nextName;
      nextName := nextName + 1;
      textures := textures[name := content];
      units := units[unit := name];
    }

    /** `glBindFramebuffer`. */
    method BindFramebuffer(fbo: nat)
      modifies this
      ensures old(Valid()) ==> Valid()
      ensures bound == fbo
      ensures textures == old(textures) && nextName == old(nextName) && units == old(units)
      ensures attachment == old(attachment) && draws == old(draws)
    {
      bound := fbo;
    }

    /** `glFramebufferTexture2D` on the bound framebuffer. */
    method AttachTexture(name: nat)
      requires Valid() && name in textures
      modifies this
      ensures Valid()
      ensures attachment == old(attachment)[bound := name]
      ensures textures == old(textures) && nextName == old(nextName) && units == old(units)
      ensures bound == old(bound) && draws == old(draws)
    {
      attachment := attachment[bound := name];
    }

    /**
     * A draw call into the bound framebuffer, with the given samplers (texture
     * units): it is logged with what each sampler saw, and the attached
     * texture then holds its output.
     */
    method Draw(samplers: seq<int>, uniforms: Uniforms)
      requires Valid() && bound in attachment && attachment[bound] in textures && Bound(textures, units, samplers)
      modifies this
      ensures Valid()
      ensures draws == old(draws) + [DrawCall(old(attachment[bound]), Sources(old(units), samplers),
                                              Inputs(old(textures), old(units), samplers), uniforms)]
      ensures textures == old(textures)[old(attachment[bound]) := Output(|old(draws)|)]
      ensures attachment == old(attachment) && nextName == old(nextName) && units == old(units) && bound == old(bound)
    {
      draws := draws + [DrawCall(attachment[bound], Sources(units, samplers), Inputs(textures, units, samplers), uniforms)];
      textures := textures[attachment[bound] := Output(|draws| - 1)];
    }

    /** `glReadPixels`: the content of the texture attached to the bound framebuffer. */
    function ReadPixels(): Content
      requires bound in attachment && attachment[bound] in textures
      reads this
    {
      textures[attachment[bound]]
    }
  }

  /** Every sampler names a unit with a texture bound to it. */
  predicate Bound(textures: map<nat, Content>, units: map<int, nat>, samplers: seq<int>)
  {
    forall i :: 0 <= i < |samplers| ==> samplers[i] in units && units[samplers[i]] in textures
  }

  /** The textures the samplers read. */
  function Sources(units: map<int, nat>, samplers: seq<int>): (r: seq<nat>)
    requires forall i :: 0 <= i < |samplers| ==> samplers[i] in units
    ensures |r| == |samplers| && forall i :: 0 <= i < |samplers| ==> r[i] == units[samplers[i]]
  {
    if samplers == [] then [] else [units[samplers[0]]] + Sources(units, samplers[1..])
  }

  /** What the samplers read. */
  function Inputs(textures: map<nat, Content>, units: map<int, nat>, samplers: seq<int>): (r: seq<Content>)
    requires Bound(textures, units, samplers)
    ensures |r| == |samplers| && forall i :: 0 <= i < |samplers| ==> r[i] == textures[units[samplers[i]]]
  {
    if samplers == [] then [] else [textures[units[samplers[0]]]] + Inputs(textures, units, samplers[1..])
  }
}
