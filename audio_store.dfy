/** lib/state/useAudioStore.ts: the UI's copy of the engine state. Every
    action is a function from the old store state to the new one. */
module AudioStore {
  import opened Types
  import opened Lists
  import opened Wrappers
  import MasterVolume

  /** The store's data: the playing flag, the master gain, the layers in the
      order they were added, and each sound's loading state. */
  datatype AudioState = AudioState(
    isPlaying: bool,
    masterVolume: real,
    activeLayers: seq<SoundLayer>,
    loadingStates: map<string, LoadingState>)

  /** `Partial<SoundLayer>`: the fields an update sets; `None` leaves a field
      as it is. */
  datatype LayerUpdate = LayerUpdate(
    id: Option<string>,
    soundId: Option<string>,
    soundName: Option<string>,
    category: Option<string>,
    volume: Option<real>,
    enabled: Option<bool>,
    solo: Option<bool>)

  /** `{ ...layer, ...updates }`: each field the update sets, otherwise the layer's. */
  function Merge(layer: SoundLayer, u: LayerUpdate): (r: SoundLayer)
    ensures r.id == if u.id.Some? then u.id.value else layer.id
    ensures r.soundId == if u.soundId.Some? then u.soundId.value else layer.soundId
    ensures r.soundName == if u.soundName.Some? then u.soundName.value else layer.soundName
    ensures r.category == if u.category.Some? then u.category.value else layer.category
    ensures r.volume == if u.volume.Some? then u.volume.value else layer.volume
    ensures r.enabled == if u.enabled.Some? then u.enabled.value else layer.enabled
    ensures r.solo == if u.solo.Some? then u.solo.value else layer.solo
  {
    SoundLayer(u.id.GetOr(layer.id), u.soundId.GetOr(layer.soundId), u.soundName.GetOr(layer.soundName),
               u.category.GetOr(layer.category), u.volume.GetOr(layer.volume),
               u.enabled.GetOr(layer.enabled), u.solo.GetOr(layer.solo))
  }

  /** The store as created (useAudioStore.ts:22-25). */
  function Initial(): (s: AudioState)
    ensures !s.isPlaying && s.masterVolume == 0.8
    ensures s.activeLayers == [] && s.loadingStates == map[]
  {
    AudioState(false, 0.8, [], map[])
  }

  /** `setIsPlaying(isPlaying)` (useAudioStore.ts:27-29). */
  function SetIsPlaying(s: AudioState, isPlaying: bool): (r: AudioState)
    ensures r.isPlaying == isPlaying
    ensures r.masterVolume == s.masterVolume && r.activeLayers == s.activeLayers
    ensures r.loadingStates == s.loadingStates
  {
    s.(isPlaying := isPlaying)
  }

  /** `setMasterVolume(volume)` (useAudioStore.ts:31-33): the gain is clamped
      into [0, 1], so the stored gain is always in range. */
  function SetMasterVolume(s: AudioState, volume: real): (r: AudioState)
    ensures 0.0 <= r.masterVolume <= 1.0
    ensures 0.0 <= volume <= 1.0 ==> r.masterVolume == volume
    ensures volume > 1.0 ==> r.masterVolume == 1.0
    ensures volume < 0.0 ==> r.masterVolume == 0.0
    ensures r.isPlaying == s.isPlaying && r.activeLayers == s.activeLayers
    ensures r.loadingStates == s.loadingStates
  {
    s.(masterVolume := MasterVolume.Max(0.0, MasterVolume.Min(1.0, volume)))
  }

  /** `addLayer(layer)` (useAudioStore.ts:35-39): appended, without any check
      for a layer with the same identifier. */
  function AddLayer(s: AudioState, layer: SoundLayer): (r: AudioState)
    ensures |r.activeLayers| == |s.activeLayers| + 1
    ensures r.activeLayers[..|s.activeLayers|] == s.activeLayers
    ensures r.activeLayers[|s.activeLayers|] == layer
    ensures r.isPlaying == s.isPlaying && r.masterVolume == s.masterVolume
    ensures r.loadingStates == s.loadingStates
  {
    s.(activeLayers := s.activeLayers + [layer])
  }

  /** Whether a layer is not the one with identifier `id`. */
  function NotId(id: string): SoundLayer -> bool
  {
    (l: SoundLayer) => l.id != id
  }

  /** `removeLayer(layerId)` (useAudioStore.ts:41-45): every layer with that
      identifier goes, the others stay in order. */
  function RemoveLayer(s: AudioState, layerId: string): (r: AudioState)
    ensures r.activeLayers == Filter(s.activeLayers, NotId(layerId))
    ensures forall i :: 0 <= i < |r.activeLayers| ==> r.activeLayers[i].id != layerId
    ensures forall i :: 0 <= i < |s.activeLayers| && s.activeLayers[i].id != layerId ==>
      s.activeLayers[i] in r.activeLayers
    ensures r.isPlaying == s.isPlaying && r.masterVolume == s.masterVolume
    ensures r.loadingStates == s.loadingStates
  {
    s.(activeLayers := Filter(s.activeLayers, NotId(layerId)))
  }

  /** The `activeLayers.map` of `updateLayer`. */
  function UpdateWhere(layers: seq<SoundLayer>, layerId: string, u: LayerUpdate): (r: seq<SoundLayer>)
    ensures |r| == |layers|
    ensures forall i :: 0 <= i < |layers| && layers[i].id == layerId ==> r[i] == Merge(layers[i], u)
    ensures forall i :: 0 <= i < |layers| && layers[i].id != layerId ==> r[i] == layers[i]
  {
    if layers == [] then []
    else [if layers[0].id == layerId then Merge(layers[0], u) else layers[0]] + UpdateWhere(layers[1..], layerId, u)
  }

  /** `updateLayer(layerId, updates)` (useAudioStore.ts:47-53): the update is
      merged into every layer with that identifier; others are untouched. */
  function UpdateLayer(s: AudioState, layerId: string, u: LayerUpdate): (r: AudioState)
    ensures r.activeLayers == UpdateWhere(s.activeLayers, layerId, u)
    ensures r.isPlaying == s.isPlaying && r.masterVolume == s.masterVolume
    ensures r.loadingStates == s.loadingStates
  {
    s.(activeLayers := UpdateWhere(s.activeLayers, layerId, u))
  }

  /** `setLoadingState(soundId, state)` (useAudioStore.ts:55-62). */
  function SetLoadingState(s: AudioState, soundId: string, state: LoadingState): (r: AudioState)
    ensures soundId in r.loadingStates && r.loadingStates[soundId] == state
    ensures forall k :: k != soundId ==> (k in r.loadingStates <==> k in s.loadingStates)
    ensures forall k :: k != soundId && k in s.loadingStates ==> r.loadingStates[k] == s.loadingStates[k]
    ensures r.isPlaying == s.isPlaying && r.masterVolume == s.masterVolume
    ensures r.activeLayers == s.activeLayers
  {
    s.(loadingStates := s.loadingStates[soundId := state])
  }

  /** `clearLayers()` (useAudioStore.ts:64-66): no layers and not playing;
      the master gain and the loading states stay. */
  function ClearLayers(s: AudioState): (r: AudioState)
    ensures r.activeLayers == [] && !r.isPlaying
    ensures r.masterVolume == s.masterVolume && r.loadingStates == s.loadingStates
  {
    s.(activeLayers := [], isPlaying := false)
  }

  /** Removing an identifier no layer has changes nothing. */
  lemma RemoveUnknownLayer(s: AudioState, layerId: string)
    requires forall i :: 0 <= i < |s.activeLayers| ==> s.activeLayers[i].id != layerId
    ensures RemoveLayer(s, layerId) == s
  {
    FilterKeepsAll(s.activeLayers, NotId(layerId));
  }

  /** Removing a layer just added, when its identifier was new, restores the
      layer list. */
  lemma {:induction false} RemoveUndoesAdd(s: AudioState, layer: SoundLayer)
    requires forall i :: 0 <= i < |s.activeLayers| ==> s.activeLayers[i].id != layer.id
    ensures RemoveLayer(AddLayer(s, layer), layer.id) == s
  {
    FilterAppend(s.activeLayers, [layer], NotId(layer.id));
    FilterKeepsAll(s.activeLayers, NotId(layer.id));
    assert Filter([layer], NotId(layer.id)) == [];
  }

  /** Removing the same identifier twice is removing it once. */
  lemma RemoveTwice(s: AudioState, layerId: string)
    ensures RemoveLayer(RemoveLayer(s, layerId), layerId) == RemoveLayer(s, layerId)
  {
    FilterIdempotent(s.activeLayers, NotId(layerId));
  }

  /** Updating an identifier no layer has changes nothing. */
  lemma UpdateUnknownLayer(s: AudioState, layerId: string, u: LayerUpdate)
    requires forall i :: 0 <= i < |s.activeLayers| ==> s.activeLayers[i].id != layerId
    ensures UpdateLayer(s, layerId, u) == s
  {
  }

  /** Applying the same update twice is applying it once. */
  lemma {:induction false} UpdateTwice(layers: seq<SoundLayer>, layerId: string, u: LayerUpdate)
    ensures UpdateWhere(UpdateWhere(layers, layerId, u), layerId, u) == UpdateWhere(layers, layerId, u)
  {
    var once := UpdateWhere(layers, layerId, u);
    var twice := UpdateWhere(once, layerId, u);
    forall i | 0 <= i < |layers|
      ensures twice[i] == once[i]
    {
      if layers[i].id == layerId {
        assert once[i] == Merge(layers[i], u);
        assert Merge(once[i], u) == once[i];
      }
    }
  }

  /** The mixer page hands the store a percentage (it passes the result of
      `volumeToPercentage`) where the store expects a gain in [0, 1]: any
      master volume of one per cent or more is stored as full gain. */
  lemma MixerPercentageSaturates(s: AudioState, volume: real)
    requires 0.01 <= volume
    ensures SetMasterVolume(s, MasterVolume.VolumeToPercentage(volume) as real).masterVolume == 1.0
  {
    assert volume * 100.0 >= 1.0;
  }
}
