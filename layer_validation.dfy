/** lib/validation/layerValidation.ts: the checks a live layer must pass. */
module LayerValidation {
  import opened Types
  import opened MixValidation

  /** The checks `validateLayer` can fail, with the text the source pushes.
      The source also checks that `volume` is a number and that `enabled`
      and `solo` are booleans; the record's field types settle those here,
      so those checks never fail and have no constructor. */
  datatype LayerError =
    | SoundRequired
    | VolumeInvalid
  {
    function Message(): string
    {
      match this
      case SoundRequired => "Layer must reference a sound"
      case VolumeInvalid => "Layer volume must be a number between 0.0 and 1.0"
    }
  }

  /** A layer `validateLayer` accepts: it names a sound and its gain is in [0, 1]. */
  predicate Acceptable(layer: SoundLayer)
  {
    layer.soundId != "" && 0.0 <= layer.volume <= 1.0
  }

  /** `validateLayer(layer)` (layerValidation.ts:7-29): one message per
      failed check, the sound check first. */
  method ValidateLayer(layer: SoundLayer) returns (r: ValidationResult<LayerError>)
    ensures r.valid <==> r.errors == []
    ensures r.valid <==> Acceptable(layer)
    ensures SoundRequired in r.errors <==> layer.soundId == ""
    ensures VolumeInvalid in r.errors <==> layer.volume < 0.0 || layer.volume > 1.0
    ensures |r.errors| <= 2
    ensures |r.errors| == (if layer.soundId == "" then 1 else 0)
                        + (if layer.volume < 0.0 || layer.volume > 1.0 then 1 else 0)
    ensures forall i, j :: 0 <= i < j < |r.errors| ==> r.errors[i] != r.errors[j]
    ensures r.errors != [] && layer.soundId == "" ==> r.errors[0] == SoundRequired
  {
    var errors: seq<LayerError> := [];
    if layer.soundId == "" {
      errors := errors + [SoundRequired];
    }
    if layer.volume < 0.0 || layer.volume > 1.0 {
      errors := errors + [VolumeInvalid];
    }
    r := ValidationResult(|errors| == 0, errors);
  }
}
