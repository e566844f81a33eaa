/** The enumerations and the property record of a texture asset document
    (ezTextureAssetProperties and the enums next to it), as far as the texture
    asset code reads or writes them. Enumerators the code never names are kept
    so that a value of each type can be any of them. */
module TextureAssetObjects {

  /** ezTexture2DChannelMappingEnum: which input file feeds which channel.
      Each letter names an output channel, the digit after it the 1-based
      input it is read from. */
  datatype ChannelMapping =
    | R1
    | RG1
    | R1_G2
    | RGB1
    | RGB1_ABLACK
    | R1_G2_B3
    | RGBA1
    | RGB1_A2
    | R1_G2_B3_A4

  /** ezTexture2DUsageEnum */
  datatype TextureUsage =
    | Unknown
    | Auto
    | Diffuse
    | Other_sRGB
    | Other_Linear
    | NormalMap
    | EmissiveMask
    | EmissiveColor
    | Height
    | Mask
    | LookupTable
    | HDR

  /** ezTextureFilterSetting */
  datatype TextureFilter =
    | FixedNearest
    | FixedBilinear
    | FixedTrilinear
    | FixedAnisotropic2x
    | FixedAnisotropic4x
    | FixedAnisotropic8x
    | FixedAnisotropic16x
    | LowestQuality
    | LowQuality
    | DefaultQuality
    | HighQuality
    | HighestQuality

  /** The numeric value of a filter setting: its position in the declaration. */
  function FilterValue(f: TextureFilter): nat
  {
    match f
    case FixedNearest => 0
    case FixedBilinear => 1
    case FixedTrilinear => 2
    case FixedAnisotropic2x => 3
    case FixedAnisotropic4x => 4
    case FixedAnisotropic8x => 5
    case FixedAnisotropic16x => 6
    case LowestQuality => 7
    case LowQuality => 8
    case DefaultQuality => 9
    case HighQuality => 10
    case HighestQuality => 11
  }

  /** ezTexture2DResolution. A stored value outside the enumerators (read
      from a damaged or newer document) is `UnlistedResolution`. */
  datatype Resolution =
    | Fixed64x64
    | Fixed128x128
    | Fixed256x256
    | Fixed512x512
    | Fixed1024x1024
    | Fixed2048x2048
    | CVarRtResolution1
    | CVarRtResolution2
    | UnlistedResolution(raw: int)

  /** ezRenderTargetFormat, with the same provision for unlisted values. */
  datatype RenderTargetFormat =
    | RGBA8
    | RGBA8sRgb
    | RGB10
    | RGBA16
    | UnlistedFormat(raw: int)

  /** The ezGALResourceFormat values the render-target switch produces. */
  datatype GalResourceFormat =
    | Invalid
    | RGBAUByteNormalized
    | RGBAUByteNormalizedsRGB
    | RG11B10Float
    | RGBAHalf

  /** The properties of a texture asset document that the generator and the
      TexConv argument builder touch. Address modes are kept as their numeric
      enum values, which is all the code uses of them. */
  datatype TextureAssetProperties = TextureAssetProperties(
    input1: string,
    input2: string,
    input3: string,
    input4: string,
    channelMapping: ChannelMapping,
    usage: TextureUsage,
    textureFilter: TextureFilter,
    addressModeU: nat,
    addressModeV: nat,
    addressModeW: nat,
    mipmaps: bool,
    compression: bool,
    premultipliedAlpha: bool,
    flipHorizontal: bool,
    isRenderTarget: bool,
    resolution: Resolution,
    rtFormat: RenderTargetFormat)

  /** GetInputFile(i) for i = 0 .. 3. */
  function InputFiles(p: TextureAssetProperties): seq<string>
  {
    [p.input1, p.input2, p.input3, p.input4]
  }
}
