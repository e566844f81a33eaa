/** The texture asset's configuration logic: classifying an image by extension
    and file-name suffix and offering import modes for it
    (ezTextureAssetDocumentGenerator::GetImportModes), applying a chosen mode
    to a fresh document (Generate), building the command line handed to
    TexConv (ezTextureAssetDocument::RunTexConv), the render-target resolution
    and format tables (InternalTransformAsset) and QueryAssetType. */
module TextureAsset {
  import opened Wrappers
  import opened StringUtils
  import Obj = TextureAssetObjects

  type uint32 = x: nat | x < 0x1_0000_0000
  type uint64 = x: nat | x < 0x1_0000_0000_0000_0000

  const TwoTo32: nat := 0x1_0000_0000

  // ==================================================================
  // Classification
  // ==================================================================

  datatype TextureType = Unknown | Diffuse | Normal | Roughness | AO | Metalness | Height | HDR | Linear

  /** The file-name suffixes (compared ignoring case) that mark each type. */
  function Suffixes(tt: TextureType): seq<string>
  {
    match tt
    case Diffuse => ["_d", "diffuse", "diff", "col", "color"]
    case Normal => ["_n", "normal", "normals", "nrm", "norm"]
    case Roughness => ["_rough", "roughness", "_rgh"]
    case AO => ["_ao"]
    case Height => ["_height", "_disp"]
    case Metalness => ["_metal", "_met", "metallic"]
    case Linear => ["_alpha"]
    case _ => []
  }

  /** The order in which the suffix groups are tried. */
  const SuffixOrder: seq<TextureType> := [Diffuse, Normal, Roughness, AO, Height, Metalness, Linear]

  predicate HasSuffixOf(name: string, tt: TextureType)
  {
    exists i :: 0 <= i < |Suffixes(tt)| && EndsWithNoCase(name, Suffixes(tt)[i])
  }

  /** The first type of `order` that `matches`, or Unknown. */
  function FirstMatch(order: seq<TextureType>, matches: TextureType -> bool): (tt: TextureType)
    ensures tt == Unknown || tt in order
  {
    if order == [] then Unknown
    else if matches(order[0]) then order[0]
    else FirstMatch(order[1..], matches)
  }

  /** With Unknown not among the candidates, the result is Unknown exactly
      when no candidate matches. */
  lemma {:induction false} FirstMatchNone(order: seq<TextureType>, matches: TextureType -> bool)
    requires Unknown !in order
    ensures FirstMatch(order, matches) == Unknown <==> forall k :: 0 <= k < |order| ==> !matches(order[k])
  {
    if order != [] {
      FirstMatchNone(order[1..], matches);
      assert forall k :: 1 <= k < |order| ==> order[k] == order[1..][k - 1];
    }
  }

  /** With distinct candidates, the result sits at the one position whose
      type matches while all before it do not. */
  lemma {:induction false} FirstMatchIsFirst(order: seq<TextureType>, matches: TextureType -> bool, k: nat)
    requires Unknown !in order
    requires forall i, j :: 0 <= i < j < |order| ==> order[i] != order[j]
    requires k < |order| && order[k] == FirstMatch(order, matches)
    ensures matches(order[k])
    ensures forall j :: 0 <= j < k ==> !matches(order[j])
  {
    if !matches(order[0]) {
      assert k > 0;
      FirstMatchIsFirst(order[1..], matches, k - 1);
      assert forall j :: 1 <= j < |order| ==> order[j] == order[1..][j - 1];
    }
  }

  /** Each group is tried once, and neither Unknown nor HDR is a group. */
  lemma SuffixOrderDistinct()
    ensures Unknown !in SuffixOrder && HDR !in SuffixOrder
    ensures forall i, j :: 0 <= i < j < |SuffixOrder| ==> SuffixOrder[i] != SuffixOrder[j]
  {
  }

  /** An ".hdr" file is HDR whatever its name; otherwise the first suffix
      group in SuffixOrder that the file name matches decides, and a name that
      matches none is Unknown. */
  function ClassifyTexture(path: string): (tt: TextureType)
    ensures tt == HDR <==> HasExtension(path, "hdr")
  {
    if HasExtension(path, "hdr") then HDR
    else FirstMatch(SuffixOrder, group => HasSuffixOf(FileName(path), group))
  }

  /** A file that is not ".hdr" is Unknown exactly when its name matches no
      suffix group. */
  lemma ClassifyTextureUnknown(path: string)
    requires !HasExtension(path, "hdr")
    ensures ClassifyTexture(path) == Unknown
      <==> forall k :: 0 <= k < |SuffixOrder| ==> !HasSuffixOf(FileName(path), SuffixOrder[k])
  {
    SuffixOrderDistinct();
    FirstMatchNone(SuffixOrder, group => HasSuffixOf(FileName(path), group));
  }

  /** A classified type is the first group of SuffixOrder the name matches. */
  lemma ClassifyTextureFirstMatch(path: string, k: nat)
    requires k < |SuffixOrder| && SuffixOrder[k] == ClassifyTexture(path)
    ensures HasSuffixOf(FileName(path), SuffixOrder[k])
    ensures forall j :: 0 <= j < k ==> !HasSuffixOf(FileName(path), SuffixOrder[j])
  {
    var matches := group => HasSuffixOf(FileName(path), group);
    SuffixOrderDistinct();
    assert SuffixOrder[k] in SuffixOrder;
    assert !HasExtension(path, "hdr");
    FirstMatchIsFirst(SuffixOrder, matches, k);
    assert matches(SuffixOrder[k]);
    forall j | 0 <= j < k ensures !HasSuffixOf(FileName(path), SuffixOrder[j]) {
      assert !matches(SuffixOrder[j]);
    }
  }

  // ==================================================================
  // Import modes
  // ==================================================================

  /** The mode name an import offer carries; Unknown leaves it unset. */
  function ModeName(tt: TextureType): string
  {
    match tt
    case Unknown => ""
    case Diffuse => "TextureImport.Diffuse"
    case Normal => "TextureImport.Normal"
    case Roughness => "TextureImport.Roughness"
    case AO => "TextureImport.AO"
    case Metalness => "TextureImport.Metalness"
    case Height => "TextureImport.Height"
    case HDR => "TextureImport.HDR"
    case Linear => "TextureImport.Linear"
  }

  function ModeIcon(tt: TextureType): string
  {
    match tt
    case Unknown => ""
    case Diffuse => ":/AssetIcons/Texture_2D.png"
    case HDR => ":/AssetIcons/Texture_2D.png"
    case Normal => ":/AssetIcons/Texture_Normals.png"
    case _ => ":/AssetIcons/Texture_Linear.png"
  }

  /** Distinct types carry distinct mode names, so Generate, which dispatches
      on the name, recovers the type an offer was made for. */
  lemma ModeNameInjective(a: TextureType, b: TextureType)
    requires ModeName(a) == ModeName(b)
    ensures a == b
  {
  }

  datatype Priority = DefaultPriority | LowPriority

  /** ezAssetDocumentGenerator::Info as GetImportModes fills it. */
  datatype ImportMode = ImportMode(priority: Priority, name: string, icon: string, outputFileParentRelative: string)

  function ModeEntry(priority: Priority, tt: TextureType, outputFile: string): ImportMode
  {
    ImportMode(priority, ModeName(tt), ModeIcon(tt), outputFile)
  }

  /** The order in which the low-priority alternatives are offered. */
  const LowPriorityOrder: seq<TextureType> := [Diffuse, Linear, Normal, Metalness, Roughness, AO, Height]

  /** `x` as an alternative to the classified type `tt`: offered unless it
      is `tt` itself. */
  function Alternative(tt: TextureType, x: TextureType): seq<TextureType>
  {
    if tt != x then [x] else []
  }

  /** The low-priority alternatives offered after the classified type. */
  function LowPriorityTypes(tt: TextureType): seq<TextureType>
  {
    Alternative(tt, Diffuse) + Alternative(tt, Linear) + Alternative(tt, Normal) + Alternative(tt, Metalness)
    + Alternative(tt, Roughness) + Alternative(tt, AO) + Alternative(tt, Height)
  }

  lemma AlternativeMembers(tt: TextureType, x: TextureType)
    ensures forall y :: y in Alternative(tt, x) <==> y == x && x != tt
  {
  }

  /** The alternatives are exactly the typed modes of LowPriorityOrder other
      than the classified type, each once: so never HDR, never Unknown, never
      the first offer again. */
  lemma LowPriorityAlternatives(tt: TextureType)
    ensures forall y :: y in LowPriorityTypes(tt) <==> y in LowPriorityOrder && y != tt
    ensures HDR !in LowPriorityTypes(tt) && Unknown !in LowPriorityTypes(tt)
  {
    AlternativeMembers(tt, Diffuse);
    AlternativeMembers(tt, Linear);
    AlternativeMembers(tt, Normal);
    AlternativeMembers(tt, Metalness);
    AlternativeMembers(tt, Roughness);
    AlternativeMembers(tt, AO);
    AlternativeMembers(tt, Height);
  }

  /** Each alternative is offered once: one offer fewer than LowPriorityOrder
      holds when the classified type is among them. */
  lemma LowPriorityCount(tt: TextureType)
    ensures |LowPriorityTypes(tt)| == |LowPriorityOrder| - (if tt in LowPriorityOrder then 1 else 0)
  {
    assert LowPriorityOrder == [Diffuse, Linear, Normal, Metalness, Roughness, AO, Height];
  }

  /** The low-priority offers for `types`, in order. */
  function Offers(types: seq<TextureType>, outputFile: string): (offers: seq<ImportMode>)
    ensures |offers| == |types|
    ensures forall i :: 0 <= i < |types| ==> offers[i] == ModeEntry(LowPriority, types[i], outputFile)
  {
    seq(|types|, i requires 0 <= i < |types| => ModeEntry(LowPriority, types[i], outputFile))
  }

  lemma OffersAppend(types: seq<TextureType>, more: seq<TextureType>, outputFile: string)
    ensures Offers(types + more, outputFile) == Offers(types, outputFile) + Offers(more, outputFile)
  {
  }

  /** The low-priority offer for `x` unless `x` is the classified type. */
  function AlternativeOffer(tt: TextureType, x: TextureType, outputFile: string): seq<ImportMode>
  {
    if tt != x then [ModeEntry(LowPriority, x, outputFile)] else []
  }

  /** The low-priority offers, one `if (tt != x)` block after the other. */
  function LowPriorityOffers(tt: TextureType, outputFile: string): seq<ImportMode>
  {
    AlternativeOffer(tt, Diffuse, outputFile) + AlternativeOffer(tt, Linear, outputFile)
    + AlternativeOffer(tt, Normal, outputFile) + AlternativeOffer(tt, Metalness, outputFile)
    + AlternativeOffer(tt, Roughness, outputFile) + AlternativeOffer(tt, AO, outputFile)
    + AlternativeOffer(tt, Height, outputFile)
  }

  /** Block by block, the offers are those for the alternative types. */
  lemma LowPriorityOffersAreOffers(tt: TextureType, outputFile: string)
    ensures LowPriorityOffers(tt, outputFile) == Offers(LowPriorityTypes(tt), outputFile)
  {
    var a1 := Alternative(tt, Diffuse);
    var a2 := a1 + Alternative(tt, Linear);
    var a3 := a2 + Alternative(tt, Normal);
    var a4 := a3 + Alternative(tt, Metalness);
    var a5 := a4 + Alternative(tt, Roughness);
    var a6 := a5 + Alternative(tt, AO);
    forall x ensures AlternativeOffer(tt, x, outputFile) == Offers(Alternative(tt, x), outputFile) {
    }
    OffersAppend(a1, Alternative(tt, Linear), outputFile);
    OffersAppend(a2, Alternative(tt, Normal), outputFile);
    OffersAppend(a3, Alternative(tt, Metalness), outputFile);
    OffersAppend(a4, Alternative(tt, Roughness), outputFile);
    OffersAppend(a5, Alternative(tt, AO), outputFile);
    OffersAppend(a6, Alternative(tt, Height), outputFile);
  }

  /** One `if (tt != x)` block of GetImportModes: `modesIn` holds `prefix`
      followed by the offers made so far, and the offer for `x`, if any, is
      appended to them. */
  method AddAlternative(modesIn: seq<ImportMode>, ghost prefix: seq<ImportMode>, ghost offered: seq<ImportMode>,
                        tt: TextureType, x: TextureType, outputFile: string)
    returns (modes: seq<ImportMode>)
    requires modesIn == prefix + offered
    ensures modes == prefix + (offered + AlternativeOffer(tt, x, outputFile))
  {
    modes := modesIn;
    if tt != x {
      modes := modes + [ModeEntry(LowPriority, x, outputFile)];
    }
  }

  /** The offers for a file classified as `tt`: first `tt` at default
      priority, then a low-priority offer for every typed mode in
      LowPriorityOrder except `tt`, all writing to `outputFile`. */
  method AddImportModes(modesIn: seq<ImportMode>, tt: TextureType, outputFile: string)
    returns (modes: seq<ImportMode>)
    ensures modes == modesIn + [ModeEntry(DefaultPriority, tt, outputFile)] + LowPriorityOffers(tt, outputFile)
  {
    modes := modesIn + [ModeEntry(DefaultPriority, tt, outputFile)];
    ghost var prefix := modes;
    assert modes == prefix + [];
    modes := AddAlternative(modes, prefix, [], tt, Diffuse, outputFile);
    ghost var offers := AlternativeOffer(tt, Diffuse, outputFile);
    assert [] + offers == offers;
    modes := AddAlternative(modes, prefix, offers, tt, Linear, outputFile);
    offers := offers + AlternativeOffer(tt, Linear, outputFile);
    modes := AddAlternative(modes, prefix, offers, tt, Normal, outputFile);
    offers := offers + AlternativeOffer(tt, Normal, outputFile);
    modes := AddAlternative(modes, prefix, offers, tt, Metalness, outputFile);
    offers := offers + AlternativeOffer(tt, Metalness, outputFile);
    modes := AddAlternative(modes, prefix, offers, tt, Roughness, outputFile);
    offers := offers + AlternativeOffer(tt, Roughness, outputFile);
    modes := AddAlternative(modes, prefix, offers, tt, AO, outputFile);
    offers := offers + AlternativeOffer(tt, AO, outputFile);
    modes := AddAlternative(modes, prefix, offers, tt, Height, outputFile);
    offers := offers + AlternativeOffer(tt, Height, outputFile);
  }

  /** Appends the import offers for a file to `modesIn`: the file is
      classified, and every offer writes to the input path with the document
      extension in place of the image's. */
  method GetImportModes(parentDirRelativePath: string, documentExtension: string, modesIn: seq<ImportMode>)
    returns (modes: seq<ImportMode>)
    ensures var tt := ClassifyTexture(parentDirRelativePath);
      var outputFile := ChangeFileExtension(parentDirRelativePath, documentExtension);
      modes == modesIn + [ModeEntry(DefaultPriority, tt, outputFile)] + Offers(LowPriorityTypes(tt), outputFile)
  {
    var baseOutputFile := ChangeFileExtension(parentDirRelativePath, documentExtension);
    var tt := ClassifyTexture(parentDirRelativePath);
    modes := AddImportModes(modesIn, tt, baseOutputFile);
    LowPriorityOffersAreOffers(tt, baseOutputFile);
  }

  // ==================================================================
  // Generate
  // ==================================================================

  /** What the editor's CreateDocument produced for the offer's output file. */
  datatype CreatedDocument =
    | NoDocument
    | OtherDocument
    | TextureAssetDocument(properties: Obj.TextureAssetProperties)

  /** Modes that read a single channel. */
  predicate IsSingleChannelMode(name: string)
  {
    name == "TextureImport.AO" || name == "TextureImport.Height"
    || name == "TextureImport.Roughness" || name == "TextureImport.Metalness"
  }

  function ModeUsage(name: string): Obj.TextureUsage
  {
    if name == "TextureImport.Diffuse" then Obj.Diffuse
    else if name == "TextureImport.Normal" then Obj.NormalMap
    else if name == "TextureImport.HDR" then Obj.HDR
    else Obj.Other_Linear
  }

  function ModeFilter(name: string, current: Obj.TextureFilter): Obj.TextureFilter
  {
    if name == "TextureImport.AO" then Obj.LowestQuality
    else if IsSingleChannelMode(name) then Obj.LowQuality
    else current
  }

  /** The properties a document ends with once a mode has been applied to
      them: the image becomes Input1, channel mapping, usage and filter follow
      the mode, and every other property is kept. */
  function ApplyImportMode(p: Obj.TextureAssetProperties, dataDirRelativePath: string, modeName: string)
    : (q: Obj.TextureAssetProperties)
    ensures q.(input1 := p.input1, channelMapping := p.channelMapping, usage := p.usage, textureFilter := p.textureFilter) == p
  {
    p.(input1 := dataDirRelativePath,
       channelMapping := if IsSingleChannelMode(modeName) then Obj.R1 else Obj.RGB1,
       usage := ModeUsage(modeName),
       textureFilter := ModeFilter(modeName, p.textureFilter))
  }

  /** Fills in a freshly created document for the chosen offer: the defaults
      RGB1 / Other_Linear are set first and then overridden by mode name (each
      property set is a local here, written into the document at the end). A
      document that could not be created, or is not a texture asset, is an
      error. */
  method Generate(dataDirRelativePath: string, info: ImportMode, created: CreatedDocument)
    returns (status: Result<Obj.TextureAssetProperties, string>)
    ensures created.NoDocument? ==> status == Err("Could not create target document")
    ensures created.OtherDocument? ==> status == Err("Target document is not a valid ezTextureAssetDocument")
    ensures created.TextureAssetDocument? ==>
      status == Ok(ApplyImportMode(created.properties, dataDirRelativePath, info.name))
  {
    if created.NoDocument? {
      return Err("Could not create target document");
    }
    if created.OtherDocument? {
      return Err("Target document is not a valid ezTextureAssetDocument");
    }

    var props := created.properties;
    var input1 := dataDirRelativePath;
    var channelMapping := Obj.RGB1;
    var usage := Obj.Other_Linear;
    var textureFilter := props.textureFilter;

    if info.name == "TextureImport.Diffuse" {
      usage := Obj.Diffuse;
    } else if info.name == "TextureImport.Normal" {
      usage := Obj.NormalMap;
    } else if info.name == "TextureImport.HDR" {
      usage := Obj.HDR;
    } else if info.name == "TextureImport.Linear" {
    } else if info.name == "TextureImport.AO" {
      channelMapping := Obj.R1;
      textureFilter := Obj.LowestQuality;
    } else if info.name == "TextureImport.Height" {
      channelMapping := Obj.R1;
      textureFilter := Obj.LowQuality;
    } else if info.name == "TextureImport.Roughness" {
      channelMapping := Obj.R1;
      textureFilter := Obj.LowQuality;
    } else if info.name == "TextureImport.Metalness" {
      channelMapping := Obj.R1;
      textureFilter := Obj.LowQuality;
    }
    return Ok(props.(input1 := input1, channelMapping := channelMapping, usage := usage, textureFilter := textureFilter));
  }

  /** The settings each offered mode leads to. */
  lemma ImportModeSettings(p: Obj.TextureAssetProperties, dataDirRelativePath: string, tt: TextureType)
    ensures var q := ApplyImportMode(p, dataDirRelativePath, ModeName(tt));
      && q.input1 == dataDirRelativePath
      && (q.channelMapping == Obj.R1 <==> tt in {AO, Height, Roughness, Metalness})
      && (q.channelMapping != Obj.R1 ==> q.channelMapping == Obj.RGB1)
      && (q.usage == Obj.Diffuse <==> tt == Diffuse)
      && (q.usage == Obj.NormalMap <==> tt == Normal)
      && (q.usage == Obj.HDR <==> tt == HDR)
      && (tt !in {Diffuse, Normal, HDR} ==> q.usage == Obj.Other_Linear)
      && (tt == AO ==> q.textureFilter == Obj.LowestQuality)
      && (tt in {Height, Roughness, Metalness} ==> q.textureFilter == Obj.LowQuality)
      && (tt !in {AO, Height, Roughness, Metalness} ==> q.textureFilter == p.textureFilter)
  {
    match tt
    case Unknown =>
    case Diffuse =>
    case Normal =>
    case Roughness =>
    case AO =>
    case Metalness =>
    case Height =>
    case HDR =>
    case Linear =>
  }

  /** The Linear mode sets nothing beyond the defaults: any name that is no
      other mode's name leads to the same properties. */
  lemma LinearModeKeepsDefaults(p: Obj.TextureAssetProperties, dataDirRelativePath: string, name: string)
    requires forall tt :: tt != Linear && tt != Unknown ==> name != ModeName(tt)
    ensures ApplyImportMode(p, dataDirRelativePath, name) == ApplyImportMode(p, dataDirRelativePath, ModeName(Linear))
    ensures ApplyImportMode(p, dataDirRelativePath, name).channelMapping == Obj.RGB1
    ensures ApplyImportMode(p, dataDirRelativePath, name).usage == Obj.Other_Linear
  {
    assert name != ModeName(Diffuse) && name != ModeName(Normal) && name != ModeName(HDR);
    assert name != ModeName(AO) && name != ModeName(Height);
    assert name != ModeName(Roughness) && name != ModeName(Metalness);
  }

  // ==================================================================
  // TexConv arguments
  // ==================================================================

  /** ezAssetFileHeader: the asset's version and 64-bit content hash. */
  datatype AssetFileHeader = AssetFileHeader(fileVersion: uint32, fileHash: uint64)

  /** What the property object reports through GetNumChannels,
      GetNumInputFiles, IsSRGB and IsHDR; those are computed outside the code
      modelled here. */
  datatype DerivedProperties = DerivedProperties(numChannels: nat, numInputFiles: nat, srgb: bool, hdr: bool)

  /** `hash & 0xFFFFFFFF` and `(hash >> 32) & 0xFFFFFFFF`: low and high halves
      that recombine to the hash. */
  function SplitHash(hash: uint64): (halves: (uint32, uint32))
    ensures halves.1 * TwoTo32 + halves.0 == hash
  {
    assert hash / TwoTo32 < TwoTo32;
    (hash % TwoTo32, (hash / TwoTo32) % TwoTo32)
  }

  function HashArguments(hash: uint64): seq<string>
  {
    var (low, high) := SplitHash(hash);
    ["-assetHashLow", HexDigits(low, 8), "-assetHashHigh", HexDigits(high, 8)]
  }

  /** Both halves are written as eight hex digits, and reading them back
      gives the hash. */
  lemma HashArgumentsRoundTrip(hash: uint64)
    ensures var args := HashArguments(hash);
      && |args| == 4 && args[0] == "-assetHashLow" && args[2] == "-assetHashHigh"
      && |args[1]| == 8 && |args[3]| == 8
      && ParseHex(args[3]) * TwoTo32 + ParseHex(args[1]) == hash
  {
    var (low, high) := SplitHash(hash);
    assert Pow16(8) == TwoTo32 by {
      assert Pow16(4) == 0x1_0000;
    }
    HexRoundTrip(low, 8);
    HexRoundTrip(high, 8);
  }

  /** The low-resolution output: the target with "-lowres" after its name. */
  function LowResPath(targetFile: string): string
  {
    ChangeFileName(targetFile, FileName(targetFile) + "-lowres")
  }

  lemma LowResPathParts(targetFile: string)
    ensures FileDirectory(LowResPath(targetFile)) == FileDirectory(targetFile)
    ensures FileName(LowResPath(targetFile)) == FileName(targetFile) + "-lowres"
    ensures FileExtension(LowResPath(targetFile)) == FileExtension(targetFile)
  {
    var name := FileName(targetFile) + "-lowres";
    FileNameIsComponent(targetFile);
    assert forall i :: 0 <= i < |name| ==> name[i] == (if i < |FileName(targetFile)| then FileName(targetFile)[i] else "-lowres"[i - |FileName(targetFile)|]);
    ChangeFileNameParts(targetFile, name);
  }

  /** A flag argument, written when its property is set. */
  function Flag(isSet: bool, flag: string): seq<string>
  {
    if isSet then [flag] else []
  }

  function FlagArguments(p: Obj.TextureAssetProperties, d: DerivedProperties): seq<string>
  {
    Flag(p.mipmaps, "-mipmaps") + Flag(p.compression, "-compress") + Flag(d.srgb, "-srgb") + Flag(d.hdr, "-hdr")
    + Flag(p.premultipliedAlpha, "-premulalpha") + Flag(p.flipHorizontal, "-flip_horz")
  }

  /** "-mipmaps" is among the flag arguments exactly when mipmaps are generated. */
  lemma MipmapsFlagPresence(p: Obj.TextureAssetProperties, d: DerivedProperties)
    ensures "-mipmaps" in FlagArguments(p, d) <==> p.mipmaps
  {
  }

  /** "-compress" is among the flag arguments exactly when compression is on. */
  lemma CompressFlagPresence(p: Obj.TextureAssetProperties, d: DerivedProperties)
    ensures "-compress" in FlagArguments(p, d) <==> p.compression
  {
  }

  /** "-srgb" is among the flag arguments exactly when the texture is sRGB. */
  lemma SrgbFlagPresence(p: Obj.TextureAssetProperties, d: DerivedProperties)
    ensures "-srgb" in FlagArguments(p, d) <==> d.srgb
  {
  }

  /** "-hdr" is among the flag arguments exactly when the texture is HDR. */
  lemma HdrFlagPresence(p: Obj.TextureAssetProperties, d: DerivedProperties)
    ensures "-hdr" in FlagArguments(p, d) <==> d.hdr
  {
  }

  /** "-premulalpha" is among the flag arguments exactly when alpha is premultiplied. */
  lemma PremultipliedFlagPresence(p: Obj.TextureAssetProperties, d: DerivedProperties)
    ensures "-premulalpha" in FlagArguments(p, d) <==> p.premultipliedAlpha
  {
  }

  /** "-flip_horz" is among the flag arguments exactly when the image is flipped horizontally. */
  lemma FlipFlagPresence(p: Obj.TextureAssetProperties, d: DerivedProperties)
    ensures "-flip_horz" in FlagArguments(p, d) <==> p.flipHorizontal
  {
  }

  /** One `if (property) arguments << flag` line of RunTexConv:
      `argumentsIn` holds `prefix` followed by the flags written so far. */
  method AddFlag(argumentsIn: seq<string>, ghost prefix: seq<string>, ghost written: seq<string>,
                 isSet: bool, flag: string)
    returns (arguments: seq<string>)
    requires argumentsIn == prefix + written
    ensures arguments == prefix + (written + Flag(isSet, flag))
  {
    arguments := argumentsIn;
    if isSet {
      arguments := arguments + [flag];
    }
  }

  /** The flag lines of RunTexConv, in order. */
  method AppendFlagArguments(argumentsIn: seq<string>, p: Obj.TextureAssetProperties, d: DerivedProperties)
    returns (arguments: seq<string>)
    ensures arguments == argumentsIn + FlagArguments(p, d)
  {
    assert argumentsIn == argumentsIn + [];
    arguments := AddFlag(argumentsIn, argumentsIn, [], p.mipmaps, "-mipmaps");
    ghost var written := Flag(p.mipmaps, "-mipmaps");
    assert [] + written == written;
    arguments := AddFlag(arguments, argumentsIn, written, p.compression, "-compress");
    written := written + Flag(p.compression, "-compress");
    arguments := AddFlag(arguments, argumentsIn, written, d.srgb, "-srgb");
    written := written + Flag(d.srgb, "-srgb");
    arguments := AddFlag(arguments, argumentsIn, written, d.hdr, "-hdr");
    written := written + Flag(d.hdr, "-hdr");
    arguments := AddFlag(arguments, argumentsIn, written, p.premultipliedAlpha, "-premulalpha");
    written := written + Flag(p.premultipliedAlpha, "-premulalpha");
    arguments := AddFlag(arguments, argumentsIn, written, p.flipHorizontal, "-flip_horz");
  }

  /** The `-in{i}` / path pairs from input `i` on, up to the first input
      without a file. */
  function InputArguments(files: seq<string>, absolute: seq<string>, i: nat): seq<string>
    requires |files| <= |absolute|
    decreases |files| - i
  {
    if i >= |files| then []
    else if |files[i]| == 0 then []
    else ["-in" + DecimalString(i), absolute[i]] + InputArguments(files, absolute, i + 1)
  }

  /** How many inputs from `i` on have a file before the first that has none. */
  function SetInputsFrom(files: seq<string>, i: nat): (m: nat)
    ensures i + m <= |files| || m == 0
    decreases |files| - i
  {
    if i >= |files| || |files[i]| == 0 then 0 else 1 + SetInputsFrom(files, i + 1)
  }

  /** From input `i` on, the list holds one pair per set input and ends at the
      last input or at the first one without a file. */
  lemma {:induction false} InputArgumentsLength(files: seq<string>, absolute: seq<string>, i: nat)
    requires |files| <= |absolute| && i <= |files|
    ensures var m := SetInputsFrom(files, i);
      && |InputArguments(files, absolute, i)| == 2 * m && i + m <= |files|
      && (i + m == |files| || |files[i + m]| == 0)
    decreases |files| - i
  {
    if i < |files| && |files[i]| > 0 {
      InputArgumentsLength(files, absolute, i + 1);
    }
  }

  /** The k-th pair from input `i` on names input i + k, which is set, with
      its absolute path. */
  lemma {:induction false} InputArgumentsPair(files: seq<string>, absolute: seq<string>, i: nat, k: nat)
    requires |files| <= |absolute| && i <= |files| && k < SetInputsFrom(files, i)
    ensures var r := InputArguments(files, absolute, i);
      && 2 * k + 1 < |r|
      && r[2 * k] == "-in" + DecimalString(i + k) && r[2 * k + 1] == absolute[i + k] && |files[i + k]| > 0
    decreases k
  {
    InputArgumentsLength(files, absolute, i);
    InputArgumentsStep(files, absolute, i);
    if k > 0 {
      var r := InputArguments(files, absolute, i);
      var t := InputArguments(files, absolute, i + 1);
      InputArgumentsPair(files, absolute, i + 1, k - 1);
      assert r[2 * k] == t[2 * (k - 1)] && r[2 * k + 1] == t[2 * (k - 1) + 1];
    }
  }

  lemma InputArgumentsStep(files: seq<string>, absolute: seq<string>, i: nat)
    requires |files| <= |absolute| && i < |files| && |files[i]| > 0
    ensures InputArguments(files, absolute, i)
      == ["-in" + DecimalString(i), absolute[i]] + InputArguments(files, absolute, i + 1)
  {
  }

  /** From input `i` on: m pairs, the k-th naming input i + k with its
      absolute path, all of them set, and the list ends at the last input or
      at the first one without a file. */
  lemma InputArgumentsFrom(files: seq<string>, absolute: seq<string>, i: nat)
    requires |files| <= |absolute| && i <= |files|
    ensures var r, m := InputArguments(files, absolute, i), SetInputsFrom(files, i);
      && |r| == 2 * m && i + m <= |files|
      && (forall k :: 0 <= k < m ==>
            r[2 * k] == "-in" + DecimalString(i + k) && r[2 * k + 1] == absolute[i + k] && |files[i + k]| > 0)
      && (i + m == |files| || |files[i + m]| == 0)
  {
    InputArgumentsLength(files, absolute, i);
    var r, m := InputArguments(files, absolute, i), SetInputsFrom(files, i);
    forall k | 0 <= k < m
      ensures r[2 * k] == "-in" + DecimalString(i + k) && r[2 * k + 1] == absolute[i + k] && |files[i + k]| > 0
    {
      InputArgumentsPair(files, absolute, i, k);
    }
  }

  /** The input loop of RunTexConv: `-in{i}` and the absolute path for each
      input in turn, stopping at the first one without a file. */
  method AppendInputArguments(argumentsIn: seq<string>, files: seq<string>, absolute: seq<string>)
    returns (arguments: seq<string>)
    requires |files| <= |absolute|
    ensures arguments == argumentsIn + InputArguments(files, absolute, 0)
  {
    arguments := argumentsIn;
    var i := 0;
    while i < |files|
      invariant 0 <= i <= |files|
      invariant arguments + InputArguments(files, absolute, i) == argumentsIn + InputArguments(files, absolute, 0)
    {
      if |files[i]| == 0 {
        break;
      }
      arguments := arguments + ["-in" + DecimalString(i), absolute[i]];
      i := i + 1;
    }
  }

  /** Inputs are listed as -in0, -in1, ... in order and stop at the first
      one without a file. */
  lemma InputArgumentsShape(files: seq<string>, absolute: seq<string>)
    requires |files| <= |absolute|
    ensures var r := InputArguments(files, absolute, 0);
      var m := |r| / 2;
      && |r| % 2 == 0 && m <= |files|
      && (forall k :: 0 <= k < m ==>
            r[2 * k] == "-in" + DecimalString(k) && r[2 * k + 1] == absolute[k] && |files[k]| > 0)
      && (m == |files| || |files[m]| == 0)
  {
    InputArgumentsFrom(files, absolute, 0);
    var r := InputArguments(files, absolute, 0);
    assert |r| / 2 == SetInputsFrom(files, 0);
  }

  /** One output-channel assignment on the TexConv command line. */
  datatype ChannelSource = ChannelSource(target: string, source: string)

  /** The channel-mapping table. */
  function ChannelMappingTable(m: Obj.ChannelMapping): seq<ChannelSource>
  {
    match m
    case R1 => [ChannelSource("-r", "in0.r")]
    case RG1 => [ChannelSource("-rg", "in0.rg")]
    case R1_G2 => [ChannelSource("-r", "in0.r"), ChannelSource("-g", "in1.y")]
    case RGB1 => [ChannelSource("-rgb", "in0.rgb")]
    case RGB1_ABLACK => [ChannelSource("-rgb", "in0.rgb"), ChannelSource("-a", "black")]
    case R1_G2_B3 => [ChannelSource("-r", "in0.r"), ChannelSource("-g", "in1.r"), ChannelSource("-b", "in2.r")]
    case RGBA1 => [ChannelSource("-rgba", "in0.rgba")]
    case RGB1_A2 => [ChannelSource("-rgb", "in0.rgb"), ChannelSource("-a", "in1.r")]
    case R1_G2_B3_A4 =>
      [ChannelSource("-r", "in0.r"), ChannelSource("-g", "in1.r"), ChannelSource("-b", "in2.r"), ChannelSource("-a", "in3.r")]
  }

  function ChannelArguments(table: seq<ChannelSource>): seq<string>
  {
    if table == [] then [] else [table[0].target, table[0].source] + ChannelArguments(table[1..])
  }

  /** The output channels an enumerator's name lists, in order. */
  function NamedChannels(m: Obj.ChannelMapping): string
  {
    match m
    case R1 => "r"
    case RG1 => "rg"
    case R1_G2 => "rg"
    case RGB1 => "rgb"
    case RGB1_ABLACK => "rgba"
    case R1_G2_B3 => "rgb"
    case RGBA1 => "rgba"
    case RGB1_A2 => "rgba"
    case R1_G2_B3_A4 => "rgba"
  }

  /** How many input files an enumerator's name refers to. */
  function NamedInputCount(m: Obj.ChannelMapping): nat
  {
    match m
    case R1 => 1
    case RG1 => 1
    case R1_G2 => 2
    case RGB1 => 1
    case RGB1_ABLACK => 1
    case R1_G2_B3 => 3
    case RGBA1 => 1
    case RGB1_A2 => 2
    case R1_G2_B3_A4 => 4
  }

  /** The channels one assignment writes: its option without the '-'. */
  function TargetOf(c: ChannelSource): string
  {
    if |c.target| == 0 then "" else c.target[1..]
  }

  /** The channels written by a sequence of assignments ("-rg" writes r, g). */
  function TargetChannels(table: seq<ChannelSource>): string
  {
    if table == [] then "" else TargetOf(table[0]) + TargetChannels(table[1..])
  }

  /** "in{k}.{channels}" reads input k. */
  predicate IsInputSource(source: string)
  {
    |source| >= 5 && source[..2] == "in" && '0' <= source[2] <= '9' && source[3] == '.'
  }

  function SourceInput(source: string): nat
    requires IsInputSource(source)
  {
    source[2] as nat - '0' as nat
  }

  /** Some assignment of the table reads input `k`. */
  predicate ReadsInput(table: seq<ChannelSource>, k: nat)
  {
    exists j :: 0 <= j < |table| && IsInputSource(table[j].source) && SourceInput(table[j].source) == k
  }

  lemma TargetChannelsOfOne(a: ChannelSource)
    ensures TargetChannels([a]) == TargetOf(a)
  {
    assert [a][1..] == [];
  }

  lemma {:induction false} TargetChannelsOfTwo(a: ChannelSource, b: ChannelSource)
    ensures TargetChannels([a, b]) == TargetOf(a) + TargetOf(b)
  {
    assert [a, b][1..] == [b];
    TargetChannelsOfOne(b);
  }

  lemma {:induction false} TargetChannelsOfThree(a: ChannelSource, b: ChannelSource, c: ChannelSource)
    ensures TargetChannels([a, b, c]) == TargetOf(a) + TargetOf(b) + TargetOf(c)
  {
    assert [a, b, c][1..] == [b, c];
    TargetChannelsOfTwo(b, c);
  }

  lemma {:induction false} TargetChannelsOfFour(a: ChannelSource, b: ChannelSource, c: ChannelSource, d: ChannelSource)
    ensures TargetChannels([a, b, c, d]) == TargetOf(a) + TargetOf(b) + TargetOf(c) + TargetOf(d)
  {
    assert [a, b, c, d][1..] == [b, c, d];
    TargetChannelsOfThree(b, c, d);
  }

  /** The table writes exactly the channels the enumerator names, each once
      and in r, g, b, a order. */
  lemma ChannelMappingTargets(m: Obj.ChannelMapping)
    ensures TargetChannels(ChannelMappingTable(m)) == NamedChannels(m)
  {
    var t := ChannelMappingTable(m);
    match m
    case R1 => TargetChannelsOfOne(t[0]);
    case RG1 => TargetChannelsOfOne(t[0]);
    case R1_G2 => TargetChannelsOfTwo(t[0], t[1]);
    case RGB1 => TargetChannelsOfOne(t[0]);
    case RGB1_ABLACK => TargetChannelsOfTwo(t[0], t[1]);
    case R1_G2_B3 => TargetChannelsOfThree(t[0], t[1], t[2]);
    case RGBA1 => TargetChannelsOfOne(t[0]);
    case RGB1_A2 => TargetChannelsOfTwo(t[0], t[1]);
    case R1_G2_B3_A4 => TargetChannelsOfFour(t[0], t[1], t[2], t[3]);
  }

  /** Every assignment goes through a "-" option that names a channel. */
  lemma ChannelMappingOptions(m: Obj.ChannelMapping)
    ensures forall j :: 0 <= j < |ChannelMappingTable(m)| ==>
      |ChannelMappingTable(m)[j].target| >= 2 && ChannelMappingTable(m)[j].target[0] == '-'
  {
  }

  /** Each source is "black" or reads, from one of the inputs the enumerator
      names, as many channels as its assignment writes. */
  lemma ChannelMappingSources(m: Obj.ChannelMapping)
    ensures var table := ChannelMappingTable(m);
      forall j :: 0 <= j < |table| ==>
        table[j].source == "black"
        || (IsInputSource(table[j].source) && SourceInput(table[j].source) < NamedInputCount(m)
            && |table[j].source| - 4 == |table[j].target| - 1)
  {
  }

  /** Every input the enumerator names is read by some assignment: the k-th
      assignment reads input k. */
  lemma ChannelMappingReadsNamedInputs(m: Obj.ChannelMapping)
    ensures forall k :: 0 <= k < NamedInputCount(m) ==> ReadsInput(ChannelMappingTable(m), k)
  {
    var table := ChannelMappingTable(m);
    forall k | 0 <= k < NamedInputCount(m) ensures ReadsInput(table, k) {
      assert IsInputSource(table[k].source) && SourceInput(table[k].source) == k;
    }
  }

  /** The first block of the command line: asset version, hash halves,
      output file, thumbnail (when it is to be updated) and low-resolution
      output. */
  function OutputArguments(targetFile: string, header: AssetFileHeader, updateThumbnail: bool, thumbnailPath: string)
    : seq<string>
  {
    ["-assetVersion", DecimalString(header.fileVersion)]
    + HashArguments(header.fileHash)
    + ["-out", targetFile]
    + (if updateThumbnail then ["-thumbnail", thumbnailPath] else [])
    + ["-outLowRes", LowResPath(targetFile)]
  }

  /** The conversion settings: channel count, flags, maximum resolution,
      address modes and filter. */
  function SettingsArguments(p: Obj.TextureAssetProperties, d: DerivedProperties, maxResolution: nat): seq<string>
  {
    ["-channels", DecimalString(d.numChannels)]
    + FlagArguments(p, d)
    + ["-maxResolution", DecimalString(maxResolution),
       "-addressU", DecimalString(p.addressModeU),
       "-addressV", DecimalString(p.addressModeV),
       "-addressW", DecimalString(p.addressModeW),
       "-filter", DecimalString(Obj.FilterValue(p.textureFilter))]
  }

  /** The TexConv command line, block by block in the order RunTexConv
      writes them. */
  function TexConvArguments(
    targetFile: string, header: AssetFileHeader, updateThumbnail: bool, thumbnailPath: string,
    p: Obj.TextureAssetProperties, d: DerivedProperties, maxResolution: nat, absoluteInputs: seq<string>)
    : seq<string>
    requires d.numInputFiles <= 4 && |absoluteInputs| == 4
  {
    OutputArguments(targetFile, header, updateThumbnail, thumbnailPath)
    + SettingsArguments(p, d, maxResolution)
    + InputArguments(Obj.InputFiles(p)[..d.numInputFiles], absoluteInputs, 0)
    + ChannelArguments(ChannelMappingTable(p.channelMapping))
  }

  /** The lines of RunTexConv up to the low-resolution output. */
  method WriteOutputArguments(targetFile: string, header: AssetFileHeader, updateThumbnail: bool, thumbnailPath: string)
    returns (arguments: seq<string>)
    ensures arguments == OutputArguments(targetFile, header, updateThumbnail, thumbnailPath)
  {
    arguments := ["-assetVersion", DecimalString(header.fileVersion)];

    var (low, high) := SplitHash(header.fileHash);
    arguments := arguments + ["-assetHashLow", HexDigits(low, 8), "-assetHashHigh", HexDigits(high, 8)];

    arguments := arguments + ["-out", targetFile];
    if updateThumbnail {
      arguments := arguments + ["-thumbnail", thumbnailPath];
    }

    var name := FileName(targetFile) + "-lowres";
    var lowResPath := ChangeFileName(targetFile, name);
    arguments := arguments + ["-outLowRes", lowResPath];
  }

  lemma AppendAssociative<T>(a: seq<T>, b: seq<T>, c: seq<T>, d: seq<T>)
    ensures a + b + c + d == a + (b + c + d)
  {
  }

  /** The lines of RunTexConv from the channel count to the filter. */
  method AppendSettingsArguments(argumentsIn: seq<string>, p: Obj.TextureAssetProperties, d: DerivedProperties, maxResolution: nat)
    returns (arguments: seq<string>)
    ensures arguments == argumentsIn + SettingsArguments(p, d, maxResolution)
  {
    var channels := ["-channels", DecimalString(d.numChannels)];
    arguments := argumentsIn + channels;
    arguments := AppendFlagArguments(arguments, p, d);
    var rest := ["-maxResolution", DecimalString(maxResolution),
                 "-addressU", DecimalString(p.addressModeU),
                 "-addressV", DecimalString(p.addressModeV),
                 "-addressW", DecimalString(p.addressModeW),
                 "-filter", DecimalString(Obj.FilterValue(p.textureFilter))];
    arguments := arguments + rest;
    AppendAssociative(argumentsIn, channels, FlagArguments(p, d), rest);
  }

  /** The argument list of RunTexConv, built step by step. `absoluteInputs`
      holds GetAbsoluteInputFilePath(i) for the four inputs and
      `thumbnailPath` the document's thumbnail file. */
  method RunTexConvArguments(
    targetFile: string, header: AssetFileHeader, updateThumbnail: bool, thumbnailPath: string,
    p: Obj.TextureAssetProperties, d: DerivedProperties, maxResolution: nat, absoluteInputs: seq<string>)
    returns (arguments: seq<string>)
    requires d.numInputFiles <= 4 && |absoluteInputs| == 4
    ensures arguments == TexConvArguments(targetFile, header, updateThumbnail, thumbnailPath, p, d, maxResolution, absoluteInputs)
  {
    arguments := WriteOutputArguments(targetFile, header, updateThumbnail, thumbnailPath);
    arguments := AppendSettingsArguments(arguments, p, d, maxResolution);
    arguments := AppendInputArguments(arguments, Obj.InputFiles(p)[..d.numInputFiles], absoluteInputs);
    arguments := arguments + ChannelArguments(ChannelMappingTable(p.channelMapping));
  }

  // ==================================================================
  // Render targets
  // ==================================================================

  /** The (resX, resY) pair written into a render target's header: the
      fixed sizes as themselves, the two console-variable resolutions as -1
      and the variable's number; any other value is not implemented. */
  function RenderTargetResolution(r: Obj.Resolution): (size: Option<(int, int)>)
    ensures size.None? <==> r.UnlistedResolution?
  {
    match r
    case Fixed64x64 => Some((64, 64))
    case Fixed128x128 => Some((128, 128))
    case Fixed256x256 => Some((256, 256))
    case Fixed512x512 => Some((512, 512))
    case Fixed1024x1024 => Some((1024, 1024))
    case Fixed2048x2048 => Some((2048, 2048))
    case CVarRtResolution1 => Some((-1, 1))
    case CVarRtResolution2 => Some((-1, 2))
    case UnlistedResolution(_) => None
  }

  /** Fixed sizes are square powers of two from 64 to 2048, the variable
      sizes are marked by resX == -1, both fit the header's int16 fields, and
      no two enumerators share a pair. */
  lemma RenderTargetResolutionTable(a: Obj.Resolution, b: Obj.Resolution)
    ensures RenderTargetResolution(a).Some? ==>
      var (x, y) := RenderTargetResolution(a).value;
      && -0x8000 <= x < 0x8000 && -0x8000 <= y < 0x8000
      && (x == -1 <==> a.CVarRtResolution1? || a.CVarRtResolution2?)
      && (x != -1 ==> x == y && x in {64, 128, 256, 512, 1024, 2048})
      && (x == -1 ==> y in {1, 2})
    ensures RenderTargetResolution(a).Some? && RenderTargetResolution(a) == RenderTargetResolution(b) ==> a == b
  {
  }

  /** The GAL format of a render target; a value outside the four listed
      ones stays Invalid. */
  function RenderTargetFormatToGal(f: Obj.RenderTargetFormat): (g: Obj.GalResourceFormat)
    ensures g == Obj.Invalid <==> f.UnlistedFormat?
  {
    match f
    case RGBA8 => Obj.RGBAUByteNormalized
    case RGBA8sRgb => Obj.RGBAUByteNormalizedsRGB
    case RGB10 => Obj.RG11B10Float
    case RGBA16 => Obj.RGBAHalf
    case UnlistedFormat(_) => Obj.Invalid
  }

  /** Distinct listed formats map to distinct GAL formats. */
  lemma RenderTargetFormatInjective(a: Obj.RenderTargetFormat, b: Obj.RenderTargetFormat)
    requires !a.UnlistedFormat? && !b.UnlistedFormat?
    requires RenderTargetFormatToGal(a) == RenderTargetFormatToGal(b)
    ensures a == b
  {
  }

  /** ezTextureAssetDocument::QueryAssetType */
  function QueryAssetType(isRenderTarget: bool): (assetType: string)
    ensures assetType == "Render Target" <==> isRenderTarget
    ensures !isRenderTarget ==> assetType == "Texture 2D"
  {
    if isRenderTarget then "Render Target" else "Texture 2D"
  }

  /** The image types the generator offers import modes for. */
  const SupportedFileTypes: seq<string> := ["tga", "dds", "jpg", "jpeg", "hdr", "png"]
}
