/** lib/storage/MixSerializer.ts: conversion between the engine's live layers
    (volumes as gains in [0, 1]) and a saved mix (volumes as percentages).
    The identifier and the clock readings the source generates are
    parameters here. */
module MixSerializer {
  import opened Types
  import opened Text
  import MasterVolume

  /** One live layer as a saved mix stores it. */
  function Stored(layer: SoundLayer): MixLayer
  {
    MixLayer(layer.soundId, layer.soundName, layer.category,
             MasterVolume.VolumeToPercentage(layer.volume) as real, layer.enabled)
  }

  /** The `layers.map` of `serializeMix` (MixSerializer.ts:14-20). */
  function SerializeLayers(layers: seq<SoundLayer>): (r: seq<MixLayer>)
    ensures |r| == |layers|
    ensures forall i :: 0 <= i < |layers| ==>
      && r[i].soundId == layers[i].soundId
      && r[i].soundName == layers[i].soundName
      && r[i].category == layers[i].category
      && r[i].enabled == layers[i].enabled
      && r[i].volume == MasterVolume.Round(layers[i].volume * 100.0) as real
  {
    seq(|layers|, i requires 0 <= i < |layers| => Stored(layers[i]))
  }

  /** `serializeMix(name, layers, tags)` (MixSerializer.ts:6-30); `id` and
      `now` are what the source draws from `Date.now()`, `Math.random()` and
      `new Date().toISOString()`. `tags` defaults to the empty list. */
  function SerializeMix(id: string, now: string, name: string, layers: seq<SoundLayer>,
                        tags: seq<string> := []): (r: Mix)
    ensures r.id == id && r.name == name && r.tags == tags
    ensures r.createdAt == now && r.updatedAt == now
    ensures r.layers == SerializeLayers(layers)
  {
    Mix(id, name, SerializeLayers(layers), now, now, tags)
  }

  /** The identifier `deserializeMixLayers` gives the layer at `index`. */
  function LayerId(index: nat, stamp: string): string
  {
    "layer-" + NatToString(index) + "-" + stamp
  }

  /** The layers of one reload get different identifiers: the decimal
      index, a string of digits, is followed by `-`, so neither identifier
      can be a prefix-extension of the other. */
  lemma LayerIdsDistinct(i: nat, j: nat, stamp: string)
    requires i != j
    ensures LayerId(i, stamp) != LayerId(j, stamp)
  {
    var a, b := NatToString(i), NatToString(j);
    var x, y := LayerId(i, stamp), LayerId(j, stamp);
    if |a| == |b| {
      NatToStringInjective(i, j);
      var k :| 0 <= k < |a| && a[k] != b[k];
      assert x[6 + k] == a[k] && y[6 + k] == b[k];
    } else if |a| < |b| {
      assert x[6 + |a|] == '-' && y[6 + |a|] == b[|a|];
    } else {
      assert x[6 + |b|] == a[|b|] && y[6 + |b|] == '-';
    }
  }

  /** `deserializeMixLayers(mixLayers)` (MixSerializer.ts:32-42); `stamp` is
      the `Date.now()` reading. Percentages are divided by 100 unclamped, and
      no layer is solo. */
  function DeserializeMixLayers(mixLayers: seq<MixLayer>, stamp: string): (r: seq<SoundLayer>)
    ensures |r| == |mixLayers|
    ensures forall i :: 0 <= i < |mixLayers| ==>
      && r[i].id == LayerId(i, stamp)
      && r[i].soundId == mixLayers[i].soundId
      && r[i].soundName == mixLayers[i].soundName
      && r[i].category == mixLayers[i].category
      && r[i].enabled == mixLayers[i].enabled
      && r[i].volume * 100.0 == mixLayers[i].volume
      && !r[i].solo
  {
    seq(|mixLayers|, i requires 0 <= i < |mixLayers| =>
      SoundLayer(LayerId(i, stamp), mixLayers[i].soundId, mixLayers[i].soundName,
                 mixLayers[i].category, mixLayers[i].volume / 100.0, mixLayers[i].enabled, false))
  }

  /** `updateMixTimestamp(mix)` (MixSerializer.ts:44-49): only `updatedAt` changes. */
  function UpdateMixTimestamp(mix: Mix, now: string): (r: Mix)
    ensures r.updatedAt == now
    ensures r.id == mix.id && r.name == mix.name && r.layers == mix.layers
    ensures r.createdAt == mix.createdAt && r.tags == mix.tags
  {
    mix.(updatedAt := now)
  }

  /** Saving and reloading live layers keeps each layer's sound, category and
      enabled flag, and its volume to within half a percentage point. */
  lemma {:induction false} LayersRoundTrip(layers: seq<SoundLayer>, stamp: string)
    requires forall i :: 0 <= i < |layers| ==> 0.0 <= layers[i].volume <= 1.0
    ensures var back := DeserializeMixLayers(SerializeLayers(layers), stamp);
      && |back| == |layers|
      && forall i :: 0 <= i < |layers| ==>
        && back[i].soundId == layers[i].soundId
        && back[i].soundName == layers[i].soundName
        && back[i].category == layers[i].category
        && back[i].enabled == layers[i].enabled
        && -0.005 <= back[i].volume - layers[i].volume <= 0.005
  {
    var stored := SerializeLayers(layers);
    var back := DeserializeMixLayers(stored, stamp);
    forall i | 0 <= i < |layers|
      ensures -0.005 <= back[i].volume - layers[i].volume <= 0.005
    {
      var v := layers[i].volume;
      MasterVolume.PercentageRoundTrip(v);
      MasterVolume.PercentageInRange(v);
      assert back[i].volume == MasterVolume.PercentageToVolume(stored[i].volume);
    }
  }

  /** Reloading a saved mix whose percentages are whole numbers and saving it
      again gives back exactly the stored layers. */
  lemma {:induction false} StoredRoundTrip(mixLayers: seq<MixLayer>, stamp: string)
    requires forall i :: 0 <= i < |mixLayers| ==> mixLayers[i].volume == mixLayers[i].volume.Floor as real
    ensures SerializeLayers(DeserializeMixLayers(mixLayers, stamp)) == mixLayers
  {
    var again := SerializeLayers(DeserializeMixLayers(mixLayers, stamp));
    forall i | 0 <= i < |mixLayers|
      ensures again[i] == mixLayers[i]
    {
      var p := mixLayers[i].volume;
      assert (p + 0.5).Floor == p.Floor;
    }
  }
}
