/** lib/validation/mixValidation.ts: the checks a mix must pass before it is
    stored, each failed check contributing one message, in a fixed order. */
module MixValidation {
  import opened Types
  import opened Text
  import opened Lists

  /** `ValidationResult`: the verdict and the failed checks behind it. */
  datatype ValidationResult<E> = ValidationResult(valid: bool, errors: seq<E>)

  /** The checks `validateMix` can fail; `Message` gives the text the source
      pushes for each. Layer positions count from 1. */
  datatype MixError =
    | NameRequired
    | NameTooLong
    | NoLayers
    | TooManyLayers
    | SoundMissing(position: nat)
    | VolumeOutOfRange(position: nat)
    | TooManyTags
  {
    function Message(): string
    {
      match this
      case NameRequired => "Mix name is required"
      case NameTooLong => "Mix name must be 100 characters or less"
      case NoLayers => "Mix must have at least one layer"
      case TooManyLayers => "Mix cannot have more than 10 layers"
      case SoundMissing(p) => "Layer " + NatToString(p) + ": soundId is required"
      case VolumeOutOfRange(p) => "Layer " + NatToString(p) + ": volume must be between 0 and 100"
      case TooManyTags => "Mix cannot have more than 10 tags"
    }
  }

  /** The messages about the name (mixValidation.ts:14-19): a blank name is
      missing, and the untrimmed `length` (UTF-16 code units) may not exceed 100. */
  function NameErrors(name: string): seq<MixError>
  {
    (if IsBlank(name) then [NameRequired] else [])
    + (if Utf16Length(name) > 100 then [NameTooLong] else [])
  }

  /** The messages about the number of layers (mixValidation.ts:22-27). */
  function CountErrors(layers: seq<MixLayer>): seq<MixError>
  {
    (if |layers| == 0 then [NoLayers] else [])
    + (if |layers| > 10 then [TooManyLayers] else [])
  }

  /** The messages about the layer at zero-based `index` (mixValidation.ts:31-36). */
  function LayerErrors(layer: MixLayer, index: nat): seq<MixError>
  {
    (if layer.soundId == "" then [SoundMissing(index + 1)] else [])
    + (if layer.volume < 0.0 || layer.volume > 100.0 then [VolumeOutOfRange(index + 1)] else [])
  }

  /** The messages of the `forEach` over `layers`, in index order. */
  function AllLayerErrors(layers: seq<MixLayer>): seq<MixError>
  {
    if layers == [] then []
    else AllLayerErrors(layers[..|layers| - 1]) + LayerErrors(layers[|layers| - 1], |layers| - 1)
  }

  /** The messages about the tags (mixValidation.ts:40-42). */
  function TagErrors(tags: seq<string>): seq<MixError>
  {
    if |tags| > 10 then [TooManyTags] else []
  }

  /** Every message `validateMix` reports, in the order it reports them. */
  function MixErrors(mix: Mix): seq<MixError>
  {
    NameErrors(mix.name) + CountErrors(mix.layers) + AllLayerErrors(mix.layers) + TagErrors(mix.tags)
  }

  /** A layer a valid mix may hold: it names a sound and its percentage is in range. */
  predicate LayerOk(layer: MixLayer)
  {
    layer.soundId != "" && 0.0 <= layer.volume <= 100.0
  }

  /** What a valid mix is: a non-blank name of at most 100 UTF-16 code units, one to
      ten acceptable layers and at most ten tags. */
  predicate WellFormed(mix: Mix)
  {
    && !IsBlank(mix.name) && Utf16Length(mix.name) <= 100
    && 1 <= |mix.layers| <= 10
    && (forall i :: 0 <= i < |mix.layers| ==> LayerOk(mix.layers[i]))
    && |mix.tags| <= 10
  }

  /** `validateMix(mix)` (mixValidation.ts:10-48): the messages are pushed
      one check at a time, the per-layer ones in a loop over the layers. */
  method ValidateMix(mix: Mix) returns (r: ValidationResult<MixError>)
    ensures r.errors == MixErrors(mix)
    ensures r.valid <==> r.errors == []
    ensures r.valid <==> WellFormed(mix)
  {
    var errors := CheckNameAndCount(mix);
    errors := CheckLayers(errors, mix.layers);
    if |mix.tags| > 10 {
      errors := errors + [TooManyTags];
    }
    r := ValidationResult(|errors| == 0, errors);
    ValidIffWellFormed(mix);
  }

  /** The name and layer-count checks of `validateMix`, pushed in order
      (mixValidation.ts:14-27). */
  method CheckNameAndCount(mix: Mix) returns (errors: seq<MixError>)
    ensures errors == NameErrors(mix.name) + CountErrors(mix.layers)
  {
    errors := [];
    if IsBlank(mix.name) {
      errors := errors + [NameRequired];
    }
    if Utf16Length(mix.name) > 100 {
      errors := errors + [NameTooLong];
    }
    if |mix.layers| == 0 {
      errors := errors + [NoLayers];
    }
    if |mix.layers| > 10 {
      errors := errors + [TooManyLayers];
    }
  }

  /** The `forEach` over the layers (mixValidation.ts:30-37): each layer's
      messages are pushed after those already collected. */
  method CheckLayers(before: seq<MixError>, layers: seq<MixLayer>) returns (errors: seq<MixError>)
    ensures errors == before + AllLayerErrors(layers)
  {
    errors := before;
    for i := 0 to |layers|
      invariant errors == before + AllLayerErrors(layers[..i])
    {
      errors := CheckLayer(errors, layers[i], i);
      AllLayerErrorsSnoc(layers, i);
      Regroup(before, AllLayerErrors(layers[..i]), LayerErrors(layers[i], i));
    }
    assert layers[..|layers|] == layers;
  }

  /** The body of the `forEach` for the layer at zero-based `index`
      (mixValidation.ts:31-36). */
  method CheckLayer(before: seq<MixError>, layer: MixLayer, index: nat) returns (errors: seq<MixError>)
    ensures errors == before + LayerErrors(layer, index)
  {
    errors := before;
    if layer.soundId == "" {
      errors := errors + [SoundMissing(index + 1)];
    }
    if layer.volume < 0.0 || layer.volume > 100.0 {
      errors := errors + [VolumeOutOfRange(index + 1)];
    }
  }

  /** The messages of one more layer follow those of the layers before it. */
  lemma AllLayerErrorsSnoc(layers: seq<MixLayer>, i: nat)
    requires i < |layers|
    ensures AllLayerErrors(layers[..i + 1]) == AllLayerErrors(layers[..i]) + LayerErrors(layers[i], i)
  {
    assert layers[..i + 1][..i] == layers[..i];
  }

  /** No per-layer message exactly when every layer is acceptable. */
  lemma {:induction false} NoLayerErrorsIff(layers: seq<MixLayer>)
    ensures AllLayerErrors(layers) == [] <==> forall i :: 0 <= i < |layers| ==> LayerOk(layers[i])
  {
    if layers != [] {
      var init := layers[..|layers| - 1];
      NoLayerErrorsIff(init);
      assert forall i :: 0 <= i < |init| ==> init[i] == layers[i];
    }
  }

  /** A mix draws no message exactly when it is well formed. */
  lemma ValidIffWellFormed(mix: Mix)
    ensures MixErrors(mix) == [] <==> WellFormed(mix)
  {
    NoLayerErrorsIff(mix.layers);
  }

  /** Each layer missing its sound is reported under its 1-based position. */
  lemma {:induction false} SoundMissingReported(layers: seq<MixLayer>, i: nat)
    requires i < |layers| && layers[i].soundId == ""
    ensures SoundMissing(i + 1) in AllLayerErrors(layers)
  {
    var init := layers[..|layers| - 1];
    if i < |init| {
      assert init[i] == layers[i];
      SoundMissingReported(init, i);
    }
  }

  /** Each layer whose percentage is out of range is reported under its
      1-based position. */
  lemma {:induction false} VolumeOutOfRangeReported(layers: seq<MixLayer>, i: nat)
    requires i < |layers| && (layers[i].volume < 0.0 || layers[i].volume > 100.0)
    ensures VolumeOutOfRange(i + 1) in AllLayerErrors(layers)
  {
    var init := layers[..|layers| - 1];
    if i < |init| {
      assert init[i] == layers[i];
      VolumeOutOfRangeReported(init, i);
    }
  }

  /** The first failure is the missing name exactly when the name is blank. */
  lemma NameReportedFirst(mix: Mix)
    ensures (MixErrors(mix) != [] && MixErrors(mix)[0] == NameRequired) <==> IsBlank(mix.name)
  {
    if !IsBlank(mix.name) && MixErrors(mix) != [] && MixErrors(mix)[0] == NameRequired {
      NameRequiredOnlyFromName(mix);
    }
  }

  /** Only the name check produces `NameRequired`. */
  lemma {:induction false} NameRequiredOnlyFromName(mix: Mix)
    ensures NameRequired in MixErrors(mix) ==> IsBlank(mix.name)
  {
    NoNameRequiredInLayers(mix.layers);
  }

  lemma {:induction false} NoNameRequiredInLayers(layers: seq<MixLayer>)
    ensures NameRequired !in AllLayerErrors(layers)
  {
    if layers != [] {
      NoNameRequiredInLayers(layers[..|layers| - 1]);
    }
  }
}
