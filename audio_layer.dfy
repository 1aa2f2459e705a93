/** lib/audio/AudioLayer.ts: one playable sound, driving a looping "main"
    audio element and an optional one-shot "glue" element.

    Each HTMLAudioElement is modelled as a `Media` record owned by its layer
    (the elements are private to the layer, so no other object can alias
    them). The outcome of the browser's asynchronous `load()` and `play()` is
    an `Outcome` parameter. The class's methods are specified by the pure
    functions on `LayerState` below, which state what each operation does to
    the layer as a whole. */
module AudioLayers {
  import opened Types
  import opened Wrappers
  import MasterVolume

  /** The observable state of an HTMLAudioElement: whether it is playing,
      its `currentTime`, `volume`, `loop` and `src`. */
  datatype Media = Media(playing: bool, position: real, volume: real, loop: bool, src: string)

  /** A freshly constructed `new Audio(src)` with its `loop` and `volume` set. */
  function NewMedia(src: string, loop: bool, volume: real): (m: Media)
    ensures !m.playing && m.position == 0.0
  {
    Media(false, 0.0, volume, loop, src)
  }

  /** What the layer does to an element: set its volume, `pause()`, rewind
      (`currentTime = 0`) or release (`src = ''`). */
  datatype MediaOp = SetVolume(v: real) | Pause | Rewind | Release

  function Apply(m: Media, op: MediaOp): (r: Media)
    ensures op.Pause? ==> r == m.(playing := false)
  {
    match op
    case SetVolume(v) => m.(volume := v)
    case Pause => m.(playing := false)
    case Rewind => m.(position := 0.0)
    case Release => m.(src := "")
  }

  /** `if (this.glueAudio) { ... }`: an operation on the optional glue element. */
  function ApplyGlue(g: Option<Media>, op: MediaOp): (r: Option<Media>)
    ensures r.Some? <==> g.Some?
    ensures g.Some? ==> r.value == Apply(g.value, op)
  {
    if g.Some? then Some(Apply(g.value, op)) else None
  }

  /** Everything an `AudioLayer` holds. */
  datatype LayerState = LayerState(
    id: string,
    soundId: string,
    soundName: string,
    category: string,
    volume: real,
    enabled: bool,
    solo: bool,
    loading: LoadingState,
    main: Media,
    glue: Option<Media>)

  /** `toJSON()` (AudioLayer.ts:141-151): the public fields, without the elements. */
  function Snapshot(s: LayerState): SoundLayer
  {
    SoundLayer(s.id, s.soundId, s.soundName, s.category, s.volume, s.enabled, s.solo)
  }

  predicate GlueSilent(s: LayerState)
  {
    s.glue.Some? ==> !s.glue.value.playing
  }

  /** The constructor (AudioLayer.ts:19-43): copies the record's fields as they
      are (the volume is NOT clamped), loops the main element, and creates a
      non-looping glue element only for a non-empty glue path. */
  function Created(layer: SoundLayer, mainPath: string, gluePath: string): (r: LayerState)
    ensures Snapshot(r) == layer
    ensures r.loading == Idle
    ensures r.main.src == mainPath && r.main.loop && r.main.volume == layer.volume
    ensures !r.main.playing && GlueSilent(r)
    ensures r.glue.Some? <==> gluePath != ""
    ensures r.glue.Some? ==> r.glue.value.src == gluePath && !r.glue.value.loop && r.glue.value.volume == layer.volume
  {
    LayerState(
      layer.id, layer.soundId, layer.soundName, layer.category,
      layer.volume, layer.enabled, layer.solo, Idle,
      NewMedia(mainPath, true, layer.volume),
      if gluePath != "" then Some(NewMedia(gluePath, false, layer.volume)) else None)
  }

  /** The `volume` setter (AudioLayer.ts:49-55): clamps into [0, 1] and writes
      the same value to both elements; nothing else changes. */
  function WithVolume(s: LayerState, value: real): (r: LayerState)
    ensures 0.0 <= r.volume <= 1.0
    ensures 0.0 <= value <= 1.0 ==> r.volume == value
    ensures value < 0.0 ==> r.volume == 0.0
    ensures 1.0 < value ==> r.volume == 1.0
    ensures r.main.volume == r.volume && (r.glue.Some? ==> r.glue.value.volume == r.volume)
    ensures r.glue.Some? <==> s.glue.Some?
  {
    var v := MasterVolume.Clamp01(value);
    s.(volume := v, main := Apply(s.main, SetVolume(v)), glue := ApplyGlue(s.glue, SetVolume(v)))
  }

  /** `pause()` (AudioLayer.ts:118-123): both elements stop, positions kept. */
  function Paused(s: LayerState): (r: LayerState)
    ensures !r.main.playing && GlueSilent(r)
    ensures r.main.position == s.main.position
    ensures r.glue.Some? <==> s.glue.Some?
  {
    s.(main := Apply(s.main, Pause), glue := ApplyGlue(s.glue, Pause))
  }

  /** The `enabled` setter (AudioLayer.ts:61-66): disabling pauses the layer;
      enabling does not start it; volume and solo are untouched. */
  function WithEnabled(s: LayerState, value: bool): (r: LayerState)
    ensures r.enabled == value
    ensures !value ==> !r.main.playing && GlueSilent(r)
    ensures r.volume == s.volume && r.solo == s.solo && r.loading == s.loading
    ensures Snapshot(r) == Snapshot(s).(enabled := value)
  {
    var t := s.(enabled := value);
    if !value then Paused(t) else t
  }

  /** The `solo` setter (AudioLayer.ts:72-74): stores the flag, nothing else. */
  function WithSolo(s: LayerState, value: bool): (r: LayerState)
    ensures r.solo == value
    ensures Snapshot(r) == Snapshot(s).(solo := value)
  {
    s.(solo := value)
  }

  /** `stop()` (AudioLayer.ts:125-131): paused and rewound to position 0. */
  function Stopped(s: LayerState): (r: LayerState)
    ensures !r.main.playing && GlueSilent(r)
    ensures r.main.position == 0.0 && (r.glue.Some? ==> r.glue.value.position == 0.0)
    ensures r.main.src == s.main.src && r.main.volume == s.main.volume
    ensures r.glue.Some? <==> s.glue.Some?
  {
    var p := Paused(s);
    p.(main := Apply(p.main, Rewind), glue := ApplyGlue(p.glue, Rewind))
  }

  /** `destroy()` (AudioLayer.ts:133-138): stopped, and both sources released. */
  function Destroyed(s: LayerState): (r: LayerState)
    ensures !r.main.playing && GlueSilent(r)
    ensures r.main.position == 0.0 && (r.glue.Some? ==> r.glue.value.position == 0.0)
    ensures r.main.src == "" && (r.glue.Some? ==> r.glue.value.src == "")
    ensures r.glue.Some? <==> s.glue.Some?
    ensures Snapshot(r) == Snapshot(s) && r.loading == s.loading
  {
    var t := Stopped(s);
    t.(main := Apply(t.main, Release), glue := ApplyGlue(t.glue, Release))
  }

  /** What `play()` (AudioLayer.ts:107-116) reports: success without touching
      anything when the layer is disabled, otherwise the main element's outcome. */
  function PlayResult(s: LayerState, outcome: Outcome): (r: Outcome)
    ensures r.Fail? <==> s.enabled && outcome.Fail?
    ensures r.Fail? ==> r == outcome
  {
    if !s.enabled then Succeed else outcome
  }

  /** The state after `play()`: only the main element starts, and only when
      the layer is enabled and the browser lets it. */
  function Played(s: LayerState, outcome: Outcome): (r: LayerState)
    ensures !s.enabled || outcome.Fail? ==> r == s
    ensures s.enabled && outcome.Succeed? ==> r.main.playing
  {
    if s.enabled && outcome.Succeed? then s.(main := s.main.(playing := true)) else s
  }

  /** What `load()` (AudioLayer.ts:80-105) reports: the main element's failure,
      else the glue element's failure when there is a glue element. */
  function LoadResult(s: LayerState, mainLoad: Outcome, glueLoad: Outcome): (r: Outcome)
    ensures r.Succeed? <==> mainLoad.Succeed? && (s.glue.None? || glueLoad.Succeed?)
    ensures mainLoad.Fail? ==> r == mainLoad
    ensures r.Fail? && mainLoad.Succeed? ==> r == glueLoad
  {
    if mainLoad.Fail? then mainLoad
    else if s.glue.Some? && glueLoad.Fail? then glueLoad
    else Succeed
  }

  /** The state after `load()`: `ready` on success, `error` on failure. */
  function Loaded(s: LayerState, mainLoad: Outcome, glueLoad: Outcome): (r: LayerState)
    ensures r.loading == (if LoadResult(s, mainLoad, glueLoad).Succeed? then Ready else Error)
  {
    s.(loading := if LoadResult(s, mainLoad, glueLoad).Succeed? then Ready else Error)
  }

  /** The `volume` setter touches only the layer's and the elements' volumes. */
  lemma VolumeOnlyChangesVolumes(s: LayerState, value: real)
    ensures var r := WithVolume(s, value);
      && r.(volume := s.volume, main := s.main, glue := s.glue) == s
      && r.main.(volume := s.main.volume) == s.main
      && (r.glue.Some? ==> r.glue.value.(volume := s.glue.value.volume) == s.glue.value)
  {
  }

  /** `pause()` touches only the elements' playing flags. */
  lemma PauseOnlyStopsElements(s: LayerState)
    ensures var r := Paused(s);
      && r.(main := s.main, glue := s.glue) == s
      && r.main.(playing := s.main.playing) == s.main
      && (r.glue.Some? ==> r.glue.value.(playing := s.glue.value.playing) == s.glue.value)
  {
  }

  /** Enabling a layer sets the flag and nothing else; it does not start it. */
  lemma EnableOnlySetsFlag(s: LayerState)
    ensures WithEnabled(s, true) == s.(enabled := true)
  {
  }

  /** The `solo` setter touches nothing but the flag. */
  lemma SoloOnlySetsFlag(s: LayerState, value: bool)
    ensures WithSolo(s, value).(solo := s.solo) == s
  {
  }

  /** `stop()` touches only the elements. */
  lemma StopOnlyTouchesElements(s: LayerState)
    ensures Stopped(s).(main := s.main, glue := s.glue) == s
  {
  }

  /** `play()` touches nothing but the main element's playing flag. */
  lemma PlayOnlyStartsMain(s: LayerState, outcome: Outcome)
    ensures var r := Played(s, outcome);
      r.(main := s.main) == s && r.main.(playing := s.main.playing) == s.main
  {
  }

  /** `load()` touches nothing but the loading state. */
  lemma LoadOnlySetsState(s: LayerState, mainLoad: Outcome, glueLoad: Outcome)
    ensures Loaded(s, mainLoad, glueLoad).(loading := s.loading) == s
  {
  }

  /** Pausing twice is pausing once. */
  lemma PauseIdempotent(s: LayerState)
    ensures Paused(Paused(s)) == Paused(s)
  {
  }

  /** Disabling a layer silences it and survives any `play()`. */
  lemma {:induction false} DisabledStaysSilent(s: LayerState, outcome: Outcome)
    ensures var d := WithEnabled(s, false);
      && Played(d, outcome) == d
      && PlayResult(d, outcome) == Succeed
      && !d.main.playing && GlueSilent(d)
  {
  }

  /** `new AudioLayer(...)` and its methods, over the fields the source keeps. */
  class AudioLayer {
    const id: string
    const soundId: string
    const soundName: string
    const category: string
    var volume: real
    var enabled: bool
    var solo: bool
    var loadingState: LoadingState
    var main: Media
    var glue: Option<Media>

    /** The whole state of this layer. */
    function State(): LayerState
      reads this
    {
      LayerState(id, soundId, soundName, category, volume, enabled, solo, loadingState, main, glue)
    }

    /** `toJSON()` (AudioLayer.ts:141-151). */
    function ToJSON(): (r: SoundLayer)
      reads this
      ensures r == Snapshot(State())
    {
      SoundLayer(id, soundId, soundName, category, volume, enabled, solo)
    }

    constructor (layer: SoundLayer, mainPath: string, gluePath: string)
      ensures State() == Created(layer, mainPath, gluePath)
    {
      id := layer.id;
      soundId := layer.soundId;
      soundName := layer.soundName;
      category := layer.category;
      volume := layer.volume;
      enabled := layer.enabled;
      solo := layer.solo;
      loadingState := Idle;
      main := NewMedia(mainPath, true, layer.volume);
      if gluePath != "" {
        glue := Some(NewMedia(gluePath, false, layer.volume));
      } else {
        glue := None;
      }
    }

    /** `set volume(value)`. */
    method SetVolume(value: real)
      modifies this
      ensures State() == WithVolume(old(State()), value)
    {
      volume := MasterVolume.Clamp01(value);
      main := main.(volume := volume);
      if glue.Some? {
        glue := Some(glue.value.(volume := volume));
      }
    }

    /** `set enabled(value)`. */
    method SetEnabled(value: bool)
      modifies this
      ensures State() == WithEnabled(old(State()), value)
    {
      enabled := value;
      if !value {
        Pause();
      }
    }

    /** `set solo(value)`. */
    method SetSolo(value: bool)
      modifies this
      ensures State() == WithSolo(old(State()), value)
    {
      solo := value;
    }

    /** `load()`: `loading` while the elements prepare, then `ready` or `error`. */
    method Load(mainLoad: Outcome, glueLoad: Outcome) returns (r: Outcome)
      modifies this
      ensures r == LoadResult(old(State()), mainLoad, glueLoad)
      ensures State() == Loaded(old(State()), mainLoad, glueLoad)
    {
      loadingState := Loading;
      if mainLoad.Fail? {
        loadingState := Error;
        return mainLoad;
      }
      if glue.Some? && glueLoad.Fail? {
        loadingState := Error;
        return glueLoad;
      }
      loadingState := Ready;
      return Succeed;
    }

    /** `play()`: a no-op when disabled; otherwise starts the main element. */
    method Play(outcome: Outcome) returns (r: Outcome)
      modifies this
      ensures r == PlayResult(old(State()), outcome)
      ensures State() == Played(old(State()), outcome)
    {
      if !enabled {
        return Succeed;
      }
      if outcome.Fail? {
        return outcome;
      }
      main := main.(playing := true);
      return Succeed;
    }

    /** `pause()`. */
    method Pause()
      modifies this
      ensures State() == Paused(old(State()))
    {
      main := main.(playing := false);
      if glue.Some? {
        glue := Some(glue.value.(playing := false));
      }
    }

    /** `stop()`. */
    method Stop()
      modifies this
      ensures State() == Stopped(old(State()))
    {
      Pause();
      main := main.(position := 0.0);
      if glue.Some? {
        glue := Some(glue.value.(position := 0.0));
      }
    }

    /** `destroy()`. */
    method Destroy()
      modifies this
      ensures State() == Destroyed(old(State()))
    {
      Stop();
      main := main.(src := "");
      if glue.Some? {
        glue := Some(glue.value.(src := ""));
      }
    }
  }
}
