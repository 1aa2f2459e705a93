/** lib/audio/AudioController.ts: the engine that owns the live layers, the
    master volume and the global playing flag, and broadcasts what happens
    to subscribers.

    The controller's `Map` of layers is a `map` field, its per-event handler
    lists a `map` from event name to a sequence of handler identities. Every
    event the controller emits is appended to `events`; every handler call
    that emission makes is appended to `deliveries`. The sound catalog is
    given at construction; the random part of a layer identifier, and the
    outcomes of `load()` and `play()`, are parameters of the operations. */
module AudioControllers {
  import opened Types
  import opened Wrappers
  import MasterVolume
  import opened AudioLayers
  import opened Lists

  /** The identity of a subscribed callback (JavaScript compares functions by reference). */
  type HandlerId = nat

  /** The `type` of a `volumeChange` event, with the layer it concerns. */
  datatype VolumeScope = LayerScope(layerId: string) | MasterScope

  /** The names handlers subscribe under: the nine names the controller
      emits (the source keys its handler map by any string, but a handler
      registered under another name is never called). */
  datatype EventName =
    | loadingStateChange
    | layerAdded
    | layerRemoved
    | volumeChange
    | masterVolumeChange
    | playbackStateChange
    | soloChange
    | loadError
    | autoplayBlocked

  /** The payloads the controller emits; timestamps are left out. */
  datatype Event =
    | LoadingStateChange(soundId: string, state: LoadingState)
    | LayerAdded(layer: SoundLayer)
    | LayerRemoved(layerId: string, soundName: string)
    | VolumeChange(scope: VolumeScope, volume: real)
    | MasterVolumeChange(volume: real)
    | PlaybackStateChange(isPlaying: bool)
    | SoloChange(layerId: string, solo: bool)
    | LoadError(soundId: string, soundName: string, error: Fault)
    | AutoplayBlocked(message: string)
  {
    /** The event name handlers subscribe to. */
    function Name(): EventName
    {
      match this
      case LoadingStateChange(_, _) => loadingStateChange
      case LayerAdded(_) => layerAdded
      case LayerRemoved(_, _) => layerRemoved
      case VolumeChange(_, _) => volumeChange
      case MasterVolumeChange(_) => masterVolumeChange
      case PlaybackStateChange(_) => playbackStateChange
      case SoloChange(_, _) => soloChange
      case LoadError(_, _, _) => loadError
      case AutoplayBlocked(_) => autoplayBlocked
    }
  }

  /** One call `handler(data)` made by `emit`. */
  datatype Delivery = Delivery(handler: HandlerId, event: Event)

  /** What `addLayer` resolves to or rejects with. */
  datatype AddResult = Added(layerId: string) | SoundNotFound(soundId: string) | Rejected(fault: Fault)

  /** The two events of `addLayer`'s `catch` block (AudioController.ts:88-97). */
  function FailureEvents(soundId: string, soundName: string, fault: Fault): (es: seq<Event>)
    ensures |es| == 2 && es[0] == LoadingStateChange(soundId, Error)
    ensures es[1].LoadError? && es[1].error.message != ""
  {
    [LoadingStateChange(soundId, Error), LoadError(soundId, soundName, ErrorDetail(fault))]
  }

  const AutoplayMessage: string := "Autoplay blocked by browser. User interaction required."

  /** The `error` payload of `loadError`: `code || 0` and `message || 'Unknown error'`. */
  function ErrorDetail(f: Fault): (r: Fault)
    ensures r.code == f.code
    ensures r.message != ""
    ensures f.message != "" ==> r.message == f.message
  {
    Fault(f.code, if f.message == "" then "Unknown error" else f.message)
  }

  /** Entry `i` is the first in `catalog` whose id is `soundId`. */
  predicate FirstWithId(catalog: seq<SoundDefinition>, soundId: string, i: int)
  {
    && 0 <= i < |catalog| && catalog[i].id == soundId
    && forall j :: 0 <= j < i ==> catalog[j].id != soundId
  }

  /** `SOUND_CATALOG.find((s) => s.id === soundId)`: the first entry with that id. */
  function FindSound(catalog: seq<SoundDefinition>, soundId: string): (r: Option<SoundDefinition>)
    ensures r.None? <==> forall i :: 0 <= i < |catalog| ==> catalog[i].id != soundId
    ensures r.Some? ==> exists i :: FirstWithId(catalog, soundId, i) && catalog[i] == r.value
  {
    if catalog == [] then None
    else if catalog[0].id == soundId then Some(catalog[0])
    else
      var r := FindSound(catalog[1..], soundId);
      assert r.Some? ==> exists i :: FirstWithId(catalog, soundId, i) && catalog[i] == r.value by {
        if r.Some? {
          var i :| FirstWithId(catalog[1..], soundId, i) && catalog[1..][i] == r.value;
          forall j | 1 <= j < i + 1 ensures catalog[j].id != soundId {
            assert catalog[j] == catalog[1..][j - 1];
          }
          assert FirstWithId(catalog, soundId, i + 1);
        }
      }
      assert r.None? ==> forall i :: 0 <= i < |catalog| ==> catalog[i].id != soundId by {
        if r.None? {
          forall i | 1 <= i < |catalog| ensures catalog[i].id != soundId {
            assert catalog[i] == catalog[1..][i - 1];
          }
        }
      }
      r
  }

  /** The handlers registered for `name`, in registration order. */
  function HandlersOf(handlers: map<EventName, seq<HandlerId>>, name: EventName): seq<HandlerId>
  {
    if name in handlers then handlers[name] else []
  }

  /** `on(event, handler)` (AudioController.ts:28-33): appends to that event's list. */
  function Subscribed(handlers: map<EventName, seq<HandlerId>>, name: EventName, h: HandlerId): (r: map<EventName, seq<HandlerId>>)
    ensures HandlersOf(r, name) == HandlersOf(handlers, name) + [h]
    ensures forall n: EventName :: n != name ==> HandlersOf(r, n) == HandlersOf(handlers, n)
  {
    handlers[name := HandlersOf(handlers, name) + [h]]
  }

  /** `hs.indexOf(h)`: the first position of `h`, or -1. */
  function IndexOf(hs: seq<HandlerId>, h: HandlerId): (r: int)
    ensures -1 <= r < |hs|
    ensures r == -1 <==> h !in hs
    ensures 0 <= r ==> hs[r] == h && h !in hs[..r]
  {
    if hs == [] then -1
    else if hs[0] == h then 0
    else
      var i := IndexOf(hs[1..], h);
      if i == -1 then -1
      else
        assert hs[..i + 1] == [hs[0]] + hs[1..][..i];
        i + 1
  }

  /** `handlers.splice(index, 1)` after `indexOf`: the first occurrence removed. */
  function WithoutFirst(hs: seq<HandlerId>, h: HandlerId): (r: seq<HandlerId>)
  {
    var i := IndexOf(hs, h);
    if i == -1 then hs else hs[..i] + hs[i + 1..]
  }

  /** `off(event, handler)` (AudioController.ts:35-43). */
  function Unsubscribed(handlers: map<EventName, seq<HandlerId>>, name: EventName, h: HandlerId): (r: map<EventName, seq<HandlerId>>)
    ensures forall n: EventName :: n != name ==> HandlersOf(r, n) == HandlersOf(handlers, n)
    ensures HandlersOf(r, name) == WithoutFirst(HandlersOf(handlers, name), h)
  {
    if name in handlers then handlers[name := WithoutFirst(handlers[name], h)] else handlers
  }

  /** Position `i` holds the earliest registration of `h`. */
  predicate FirstAt(hs: seq<HandlerId>, h: HandlerId, i: int)
  {
    0 <= i < |hs| && hs[i] == h && h !in hs[..i]
  }

  /** `off` removes exactly one registration of a subscribed handler, the
      earliest, and leaves the list alone otherwise. */
  lemma {:induction false} OffRemovesOne(hs: seq<HandlerId>, h: HandlerId)
    ensures h !in hs ==> WithoutFirst(hs, h) == hs
    ensures h in hs ==> |WithoutFirst(hs, h)| == |hs| - 1
    ensures h in hs ==> multiset(WithoutFirst(hs, h)) == multiset(hs) - multiset{h}
    ensures h in hs ==> exists i :: FirstAt(hs, h, i) && WithoutFirst(hs, h) == hs[..i] + hs[i + 1..]
  {
    if h in hs {
      var i := IndexOf(hs, h);
      assert FirstAt(hs, h, i);
      assert hs == hs[..i] + [hs[i]] + hs[i + 1..];
      assert multiset(hs) == multiset(hs[..i]) + multiset{h} + multiset(hs[i + 1..]);
    }
  }

  /** Subscribing a new handler and unsubscribing it restores the list. */
  lemma {:induction false} OnThenOff(handlers: map<EventName, seq<HandlerId>>, name: EventName, h: HandlerId)
    requires h !in HandlersOf(handlers, name)
    ensures forall n: EventName :: HandlersOf(Unsubscribed(Subscribed(handlers, name, h), name, h), n) == HandlersOf(handlers, n)
  {
    var hs := HandlersOf(handlers, name);
    assert HandlersOf(Subscribed(handlers, name, h), name) == hs + [h];
    assert forall i :: 0 <= i < |hs| ==> (hs + [h])[i] != h;
    assert IndexOf(hs + [h], h) == |hs|;
    assert (hs + [h])[..|hs|] == hs;
    assert WithoutFirst(hs + [h], h) == hs;
  }

  /** The calls `emit` makes for one event: every handler, in registration order. */
  function Calls(hs: seq<HandlerId>, e: Event): seq<Delivery>
  {
    if hs == [] then [] else Calls(hs[..|hs| - 1], e) + [Delivery(hs[|hs| - 1], e)]
  }

  /** `emit` calls every handler of the event once, in registration order. */
  lemma {:induction false} CallsInOrder(hs: seq<HandlerId>, e: Event)
    ensures |Calls(hs, e)| == |hs|
    ensures forall i :: 0 <= i < |hs| ==> Calls(hs, e)[i] == Delivery(hs[i], e)
  {
    if hs != [] {
      CallsInOrder(hs[..|hs| - 1], e);
    }
  }

  function CallsFor(handlers: map<EventName, seq<HandlerId>>, e: Event): seq<Delivery>
  {
    Calls(HandlersOf(handlers, e.Name()), e)
  }

  /** The calls made by emitting `es` in order with a fixed registry. */
  function Delivered(handlers: map<EventName, seq<HandlerId>>, es: seq<Event>): seq<Delivery>
  {
    if es == [] then [] else Delivered(handlers, es[..|es| - 1]) + CallsFor(handlers, es[|es| - 1])
  }

  lemma DeliveredSnoc(handlers: map<EventName, seq<HandlerId>>, es: seq<Event>, e: Event)
    ensures Delivered(handlers, es + [e]) == Delivered(handlers, es) + CallsFor(handlers, e)
  {
    assert (es + [e])[..|es|] == es;
  }

  lemma DeliveredPair(handlers: map<EventName, seq<HandlerId>>, x: Event, y: Event)
    ensures Delivered(handlers, [x, y]) == CallsFor(handlers, x) + CallsFor(handlers, y)
  {
    DeliveredSnoc(handlers, [x], y);
    assert [x] + [y] == [x, y];
    assert [x][..0] == [];
  }

  lemma DeliveredCons(handlers: map<EventName, seq<HandlerId>>, x: Event, es: seq<Event>)
    ensures Delivered(handlers, [x] + es) == CallsFor(handlers, x) + Delivered(handlers, es)
  {
    DeliveredAppend(handlers, [x], es);
    DeliveredSnoc(handlers, [], x);
    assert [] + [x] == [x];
  }

  /** Emitting `a` and then `b` makes the calls of `a` followed by those of `b`. */
  lemma {:induction false} DeliveredAppend(handlers: map<EventName, seq<HandlerId>>, a: seq<Event>, b: seq<Event>)
    ensures Delivered(handlers, a + b) == Delivered(handlers, a) + Delivered(handlers, b)
  {
    if b != [] {
      var b', last := b[..|b| - 1], b[|b| - 1];
      SplitLast(b);
      Regroup(a, b', [last]);
      DeliveredSnoc(handlers, a + b', last);
      DeliveredAppend(handlers, a, b');
      Regroup(Delivered(handlers, a), Delivered(handlers, b'), CallsFor(handlers, last));
      DeliveredSnoc(handlers, b', last);
    } else {
      assert a + b == a;
    }
  }

  /** An event nobody subscribed to reaches nobody. */
  lemma {:induction false} UnheardEvent(handlers: map<EventName, seq<HandlerId>>, e: Event)
    requires HandlersOf(handlers, e.Name()) == []
    ensures CallsFor(handlers, e) == []
  {
  }

  /** The state of a layer `addLayer` creates for `sound`: enabled, not solo,
      with the volume as given. */
  function NewLayer(sound: SoundDefinition, layerId: string, volume: real): (s: LayerState)
    ensures s.id == layerId && s.soundId == sound.id && s.soundName == sound.name
    ensures s.volume == volume && s.enabled && !s.solo && s.loading == Idle
  {
    Created(SoundLayer(layerId, sound.id, sound.name, sound.category, volume, true, false), sound.mainPath, sound.gluePath)
  }

  /** One layer under `setMasterVolume` (AudioController.ts:132-136): its own
      volume is overwritten by its product with the master volume. */
  function Scaled(s: LayerState, master: real): LayerState
  {
    WithVolume(s, s.volume * master)
  }

  /** The volume handed to the setter is the layer's current volume times the
      master, whichever way that product was computed. */
  lemma ScaledBy(s: LayerState, volume: real, master: real, product: real)
    requires s.volume == volume && product == volume * master
    ensures Scaled(s, master) == WithVolume(s, product)
  {
  }

  /** The master cascade keeps a layer volume in [0, 1] and, for a volume
      already in range, stores the product; nothing but the volumes changes. */
  lemma ScaledVolume(s: LayerState, master: real)
    requires 0.0 <= master <= 1.0 && 0.0 <= s.volume <= 1.0
    ensures Scaled(s, master).volume == s.volume * master
    ensures Snapshot(Scaled(s, master)) == Snapshot(s).(volume := s.volume * master)
  {
    MasterVolume.ProductInUnit(s.volume, master);
  }

  /** The cascade compounds: a layer at 0.5 under masters 0.5 then 0.8 ends
      at 0.2, where a gain applied to the original volume would give 0.4. */
  lemma {:induction false} MasterCompounds(s: LayerState)
    requires s.volume == 0.5
    ensures Scaled(Scaled(s, 0.5), 0.8).volume == 0.2
  {
    ScaledVolume(s, 0.5);
    ScaledVolume(Scaled(s, 0.5), 0.8);
  }

  /** The outcome the browser gives to `play()` on layer `k`; none given means it plays. */
  function OutcomeFor(outcomes: map<string, Outcome>, k: string): Outcome
  {
    if k in outcomes then outcomes[k] else Succeed
  }

  /** One layer under `toggleSolo(layerId)` (AudioController.ts:184-213):
      `target` says whether it is the toggled layer, `soloing` whether that
      layer was not solo before. Soloing sets `solo` then `enabled` on every
      layer; un-soloing sets `enabled` then `solo`. */
  function SoloStep(s: LayerState, target: bool, soloing: bool): LayerState
  {
    if soloing then WithEnabled(WithSolo(s, target), target)
    else WithSolo(WithEnabled(s, true), false)
  }

  /** Solo exclusivity: soloing leaves the toggled layer solo and enabled and
      every other layer neither, and silent; un-soloing re-enables every
      layer and clears every solo flag. Volumes never change. */
  lemma SoloExclusive(s: LayerState, target: bool, soloing: bool)
    ensures var r := SoloStep(s, target, soloing);
      && r.volume == s.volume && r.id == s.id
      && (soloing && target ==> r.solo && r.enabled)
      && (soloing && !target ==> !r.solo && !r.enabled && !r.main.playing && GlueSilent(r))
      && (!soloing ==> !r.solo && r.enabled)
  {
  }

  /** Toggling the same layer twice re-enables every layer and clears every
      solo flag, whatever the layers were before: the first toggle leaves the
      toggled layer solo, so the second one un-solos. */
  lemma {:induction false} SoloTwice(s: LayerState, target: bool)
    ensures SoloStep(s, true, true).solo
    ensures var twice := SoloStep(SoloStep(s, target, true), target, false);
      twice.enabled && !twice.solo && twice.volume == s.volume
  {
    SoloExclusive(s, true, true);
    SoloExclusive(s, target, true);
    SoloExclusive(SoloStep(s, target, true), target, false);
  }

  /** What `addLayer` amounts to: its result, the layer it leaves in the
      engine (if any) and the events it emits, in order. */
  datatype Addition = Addition(result: AddResult, kept: Option<LayerState>, announced: seq<Event>)

  /** The `try`/`catch` of `addLayer` for a layer in state `s`: announce
      `loading`; a failed load reports and keeps nothing; otherwise the
      loaded layer is installed. */
  function Attached(s: LayerState, soundId: string, soundName: string, mainLoad: Outcome, glueLoad: Outcome,
                    autoplay: Outcome, playing: bool): Addition
  {
    var loading := LoadingStateChange(soundId, Loading);
    var load := LoadResult(s, mainLoad, glueLoad);
    if load.Fail? then
      Addition(Rejected(load.fault), None, [loading] + FailureEvents(soundId, soundName, load.fault))
    else
      var i := Installed(Loaded(s, mainLoad, glueLoad), soundId, soundName, autoplay, playing);
      Addition(i.result, i.kept, [loading] + i.announced)
  }

  /** What follows a successful load: announce `ready`, store the layer and
      announce it; when the engine is playing, start it, and a refused
      start reports and rejects although the layer stays. */
  function Installed(ready: LayerState, soundId: string, soundName: string, autoplay: Outcome, playing: bool): Addition
  {
    var admitted := [LoadingStateChange(soundId, Ready), LayerAdded(Snapshot(ready))];
    if !playing then
      Addition(Added(ready.id), Some(ready), admitted)
    else
      var play := PlayResult(ready, autoplay);
      if play.Fail? then
        Addition(Rejected(play.fault), Some(Played(ready, autoplay)), admitted + FailureEvents(soundId, soundName, play.fault))
      else
        Addition(Added(ready.id), Some(Played(ready, autoplay)), admitted)
  }

  /** `addLayer(soundId, volume)` for the catalog entry `found`: an unknown
      sound is rejected before anything is emitted or created. */
  function AddOutcome(found: Option<SoundDefinition>, soundId: string, layerId: string, mainLoad: Outcome,
                    glueLoad: Outcome, autoplay: Outcome, volume: real, playing: bool): Addition
  {
    if found.None? then Addition(SoundNotFound(soundId), None, [])
    else Attached(NewLayer(found.value, layerId, volume), soundId, found.value.name, mainLoad, glueLoad, autoplay, playing)
  }

  /** Distinct keys of a layer table hold distinct layers, so a call that
      changes one layer leaves the others as they were. */
  predicate KeyedById(ls: map<string, AudioLayer>)
  {
    forall k :: k in ls ==> ls[k].id == k
  }

  /** One turn of the `play()` calls of `playAll`. */
  method PlayOne(ls: map<string, AudioLayer>, k: string, outcome: Outcome) returns (r: Outcome)
    requires k in ls && KeyedById(ls)
    modifies ls[k]
    ensures r == PlayResult(old(ls[k].State()), outcome)
    ensures ls[k].State() == Played(old(ls[k].State()), outcome)
    ensures forall j :: j in ls && j != k ==> ls[j].State() == old(ls[j].State())
  {
    r := ls[k].Play(outcome);
  }

  /** One turn of the `forEach` of `pauseAll`. */
  method PauseOne(ls: map<string, AudioLayer>, k: string)
    requires k in ls && KeyedById(ls)
    modifies ls[k]
    ensures ls[k].State() == Paused(old(ls[k].State()))
    ensures forall j :: j in ls && j != k ==> ls[j].State() == old(ls[j].State())
  {
    ls[k].Pause();
  }

  /** One turn of the `forEach` of `clearAll`. */
  method DestroyOne(ls: map<string, AudioLayer>, k: string)
    requires k in ls && KeyedById(ls)
    modifies ls[k]
    ensures ls[k].State() == Destroyed(old(ls[k].State()))
    ensures forall j :: j in ls && j != k ==> ls[j].State() == old(ls[j].State())
  {
    ls[k].Destroy();
  }

  /** One turn of the `forEach` of `toggleSolo`: while soloing, a layer
      other than the soloed one is un-soloed and then disabled; otherwise
      every layer is enabled and then un-soloed. */
  method StepOther(ls: map<string, AudioLayer>, k: string, soloing: bool)
    requires k in ls && KeyedById(ls)
    modifies ls[k]
    ensures ls[k].State() == SoloStep(old(ls[k].State()), false, soloing)
    ensures forall j :: j in ls && j != k ==> ls[j].State() == old(ls[j].State())
  {
    var layer := ls[k];
    if soloing {
      layer.SetSolo(false);
      layer.SetEnabled(false);
    } else {
      layer.SetEnabled(true);
      layer.SetSolo(false);
    }
  }

  /** The toggled layer's own update when soloing: `solo`, then `enabled`. */
  method SoloTarget(ls: map<string, AudioLayer>, k: string)
    requires k in ls && KeyedById(ls)
    modifies ls[k]
    ensures ls[k].State() == SoloStep(old(ls[k].State()), true, true)
    ensures forall j :: j in ls && j != k ==> ls[j].State() == old(ls[j].State())
  {
    var layer := ls[k];
    layer.SetSolo(true);
    layer.SetEnabled(true);
  }

  /** The audio engine. */
  class AudioController {
    const catalog: seq<SoundDefinition>
    var layers: map<string, AudioLayer>
    var masterVolume: real
    var isPlaying: bool
    var handlers: map<EventName, seq<HandlerId>>
    var events: seq<Event>
    var deliveries: seq<Delivery>

    /** Every layer is stored under its own identifier (so distinct keys hold
        distinct layers), and the master volume is a gain in [0, 1]. */
    ghost predicate Valid()
      reads this`masterVolume, this`layers
    {
      && 0.0 <= masterVolume <= 1.0
      && KeyedById(layers)
    }

    /** `getLayerCount()` (AudioController.ts:225-227). */
    function LayerCount(): nat
      reads this`layers
    {
      |layers|
    }

    constructor (catalog: seq<SoundDefinition>)
      ensures Valid()
      ensures this.catalog == catalog
      ensures layers == map[] && masterVolume == 0.8 && !isPlaying
      ensures handlers == map[] && events == [] && deliveries == []
    {
      this.catalog := catalog;
      layers := map[];
      masterVolume := 0.8;
      isPlaying := false;
      handlers := map[];
      events := [];
      deliveries := [];
    }

    /** `on(event, handler)`. */
    method On(name: EventName, h: HandlerId)
      modifies this`handlers
      ensures handlers == Subscribed(old(handlers), name, h)
    {
      if name !in handlers {
        handlers := handlers[name := []];
      }
      handlers := handlers[name := handlers[name] + [h]];
    }

    /** `off(event, handler)`. */
    method Off(name: EventName, h: HandlerId)
      modifies this`handlers
      ensures handlers == Unsubscribed(old(handlers), name, h)
    {
      if name in handlers {
        var hs := handlers[name];
        var index := IndexOf(hs, h);
        ghost var rest := WithoutFirst(hs, h);
        if index > -1 {
          assert rest == hs[..index] + hs[index + 1..];
          handlers := handlers[name := hs[..index] + hs[index + 1..]];
        } else {
          assert rest == hs;
          assert handlers[name := rest] == handlers;
        }
      }
    }

    /** `emit(event, data)` (AudioController.ts:45-50): calls the event's
        handlers one after another in registration order. */
    method Emit(e: Event)
      modifies this`events, this`deliveries
      ensures events == old(events) + [e]
      ensures deliveries == old(deliveries) + CallsFor(handlers, e)
      ensures deliveries == old(deliveries) + Delivered(handlers, [e])
    {
      DeliveredSnoc(handlers, [], e);
      assert [] + [e] == [e];
      events := events + [e];
      var hs := HandlersOf(handlers, e.Name());
      var i := 0;
      while i < |hs|
        invariant 0 <= i <= |hs|
        invariant events == old(events) + [e]
        invariant deliveries == old(deliveries) + Calls(hs[..i], e)
      {
        assert hs[..i + 1][..i] == hs[..i];
        deliveries := deliveries + [Delivery(hs[i], e)];
        i := i + 1;
      }
      assert hs[..i] == hs;
    }

    /** `addLayer(soundId, volume)` (AudioController.ts:52-100), specified by
        `AddOutcome`: the new layer's identifier is `soundId + "-" + stamp`;
        `mainLoad` and `glueLoad` are what the browser makes of the two
        `load()`s, `autoplay` of the `play()` made when the engine is
        already playing. */
    method AddLayer(soundId: string, stamp: string, mainLoad: Outcome, glueLoad: Outcome,
                    autoplay: Outcome, volume: real := 0.8) returns (r: AddResult)
      requires Valid()
      modifies this`layers, this`events, this`deliveries
      ensures Valid()
      ensures var a := AddOutcome(FindSound(catalog, soundId), soundId, soundId + "-" + stamp,
                                mainLoad, glueLoad, autoplay, volume, isPlaying);
        && r == a.result
        && events == old(events) + a.announced
        && deliveries == old(deliveries) + Delivered(handlers, a.announced)
        && (a.kept.None? ==> layers == old(layers))
        && (a.kept.Some? ==>
              var layerId := soundId + "-" + stamp;
              && layerId in layers && fresh(layers[layerId])
              && layers == old(layers)[layerId := layers[layerId]]
              && layers[layerId].State() == a.kept.value
              && LayerCount() == old(LayerCount()) + (if layerId in old(layers) then 0 else 1))
    {
      var found := FindSound(catalog, soundId);
      if found.None? {
        return SoundNotFound(soundId);
      }
      var sound := found.value;
      var layerId := soundId + "-" + stamp;
      var record := SoundLayer(layerId, sound.id, sound.name, sound.category, volume, true, false);
      var layer := new AudioLayer(record, sound.mainPath, sound.gluePath);
      r := Attach(layer, soundId, sound.name, mainLoad, glueLoad, autoplay);
    }

    /** The `try` block of `addLayer` (AudioController.ts:72-86) for a layer
        just created, with the `catch` block's reporting. */
    method Attach(layer: AudioLayer, soundId: string, soundName: string,
                  mainLoad: Outcome, glueLoad: Outcome, autoplay: Outcome) returns (r: AddResult)
      requires Valid()
      requires layer !in layers.Values
      modifies this`layers, this`events, this`deliveries, layer
      ensures Valid()
      ensures var a := Attached(old(layer.State()), soundId, soundName, mainLoad, glueLoad, autoplay, isPlaying);
        && r == a.result
        && events == old(events) + a.announced
        && deliveries == old(deliveries) + Delivered(handlers, a.announced)
        && (a.kept.None? ==> layers == old(layers))
        && (a.kept.Some? ==> layers == old(layers)[layer.id := layer] && layer.State() == a.kept.value)
    {
      var loading := LoadingStateChange(soundId, Loading);
      ghost var e0, d0 := events, deliveries;
      Emit(loading);
      var loaded := layer.Load(mainLoad, glueLoad);
      if loaded.Fail? {
        ghost var failure := FailureEvents(soundId, soundName, loaded.fault);
        ReportFailure(soundId, soundName, loaded.fault);
        Regroup(e0, [loading], failure);
        DeliveredCons(handlers, loading, failure);
        Regroup(d0, CallsFor(handlers, loading), Delivered(handlers, failure));
        return Rejected(loaded.fault);
      }
      ghost var i := Installed(layer.State(), soundId, soundName, autoplay, isPlaying);
      r := Install(layer, soundId, soundName, autoplay);
      Regroup(e0, [loading], i.announced);
      DeliveredCons(handlers, loading, i.announced);
      Regroup(d0, CallsFor(handlers, loading), Delivered(handlers, i.announced));
    }

    /** `addLayer` after a successful load (AudioController.ts:75-86), with
        the `catch` block's reporting of a refused auto-play. */
    method Install(layer: AudioLayer, soundId: string, soundName: string, autoplay: Outcome) returns (r: AddResult)
      requires Valid()
      modifies this`layers, this`events, this`deliveries, layer
      ensures Valid()
      ensures var i := Installed(old(layer.State()), soundId, soundName, autoplay, isPlaying);
        && r == i.result && i.kept.Some?
        && events == old(events) + i.announced
        && deliveries == old(deliveries) + Delivered(handlers, i.announced)
        && layers == old(layers)[layer.id := layer]
        && layer.State() == i.kept.value
    {
      var ready := LoadingStateChange(soundId, Ready);
      ghost var admitted := [ready, LayerAdded(layer.ToJSON())];
      ghost var e0, d0 := events, deliveries;
      Admit(layer, ready);
      if isPlaying {
        var played := layer.Play(autoplay);
        if played.Fail? {
          ghost var failure := FailureEvents(soundId, soundName, played.fault);
          ReportFailure(soundId, soundName, played.fault);
          Regroup(e0, admitted, failure);
          DeliveredAppend(handlers, admitted, failure);
          Regroup(d0, Delivered(handlers, admitted), Delivered(handlers, failure));
          return Rejected(played.fault);
        }
      }
      return Added(layer.id);
    }

    /** The `catch` block of `addLayer` (AudioController.ts:87-98): the
        `error` loading state, then `loadError` with the failure's details. */
    method ReportFailure(soundId: string, soundName: string, fault: Fault)
      modifies this`events, this`deliveries
      ensures events == old(events) + FailureEvents(soundId, soundName, fault)
      ensures deliveries == old(deliveries) + Delivered(handlers, FailureEvents(soundId, soundName, fault))
    {
      EmitPair(LoadingStateChange(soundId, Error), LoadError(soundId, soundName, ErrorDetail(fault)));
    }

    /** Two `emit` calls in a row. */
    method EmitPair(x: Event, y: Event)
      modifies this`events, this`deliveries
      ensures events == old(events) + [x, y]
      ensures deliveries == old(deliveries) + Delivered(handlers, [x, y])
    {
      ghost var e0, d0 := events, deliveries;
      Emit(x);
      Emit(y);
      Regroup(e0, [x], [y]);
      DeliveredPair(handlers, x, y);
      Regroup(d0, CallsFor(handlers, x), CallsFor(handlers, y));
    }

    /** The part of `addLayer` after a successful load (AudioController.ts:75-79):
        `ready` is announced, the layer is stored under its identifier and
        `layerAdded` carries its `toJSON()`. */
    method Admit(layer: AudioLayer, ready: Event)
      requires Valid()
      modifies this`layers, this`events, this`deliveries
      ensures Valid()
      ensures layers == old(layers)[layer.id := layer]
      ensures events == old(events) + [ready, LayerAdded(layer.ToJSON())]
      ensures deliveries == old(deliveries) + Delivered(handlers, [ready, LayerAdded(layer.ToJSON())])
    {
      var added := LayerAdded(layer.ToJSON());
      ghost var e0, d0 := events, deliveries;
      Emit(ready);
      layers := layers[layer.id := layer];
      Emit(added);
      Regroup(e0, [ready], [added]);
      DeliveredPair(handlers, ready, added);
      Regroup(d0, CallsFor(handlers, ready), CallsFor(handlers, added));
    }

    /** `removeLayer(layerId)` (AudioController.ts:102-113): an unknown
        identifier is ignored; otherwise the layer is destroyed, forgotten
        and `layerRemoved` announced with its sound's name. */
    method RemoveLayer(layerId: string)
      requires Valid()
      modifies this`layers, this`events, this`deliveries, if layerId in layers then {layers[layerId]} else {}
      ensures Valid()
      ensures layerId !in old(layers) ==> layers == old(layers) && events == old(events) && deliveries == old(deliveries)
      ensures layerId in old(layers) ==>
        && layers == old(layers) - {layerId}
        && LayerCount() == old(LayerCount()) - 1
        && old(layers)[layerId].State() == Destroyed(old(layers[layerId].State()))
        && events == old(events) + [LayerRemoved(layerId, old(layers)[layerId].soundName)]
        && deliveries == old(deliveries) + Delivered(handlers, [LayerRemoved(layerId, old(layers)[layerId].soundName)])
    {
      if layerId in layers {
        var layer := layers[layerId];
        layer.Destroy();
        layers := layers - {layerId};
        Emit(LayerRemoved(layerId, layer.soundName));
      }
    }

    /** `setLayerVolume(layerId, volume)` (AudioController.ts:115-126): the
        layer's setter clamps, but the event carries the volume as given. */
    method SetLayerVolume(layerId: string, volume: real)
      requires Valid()
      modifies this`events, this`deliveries, if layerId in layers then {layers[layerId]} else {}
      ensures Valid()
      ensures layerId !in layers ==> events == old(events) && deliveries == old(deliveries)
      ensures layerId in layers ==>
        && layers[layerId].State() == WithVolume(old(layers[layerId].State()), volume)
        && events == old(events) + [VolumeChange(LayerScope(layerId), volume)]
        && deliveries == old(deliveries) + Delivered(handlers, [VolumeChange(LayerScope(layerId), volume)])
    {
      if layerId in layers {
        layers[layerId].SetVolume(volume);
        Emit(VolumeChange(LayerScope(layerId), volume));
      }
    }

    /** `setMasterVolume(volume)` (AudioController.ts:128-148): the master
        volume is clamped into [0, 1], every layer's volume is overwritten by
        its product with it, and both `masterVolumeChange` and a master
        `volumeChange` are announced. */
    method SetMasterVolume(volume: real)
      requires Valid()
      modifies this`masterVolume, this`events, this`deliveries, layers.Values
      ensures Valid()
      ensures masterVolume == MasterVolume.Clamp01(volume)
      ensures forall k :: k in layers ==> layers[k].State() == Scaled(old(layers[k].State()), masterVolume)
      ensures events == old(events) + [MasterVolumeChange(masterVolume), VolumeChange(MasterScope, masterVolume)]
      ensures deliveries == old(deliveries) + Delivered(handlers, [MasterVolumeChange(masterVolume), VolumeChange(MasterScope, masterVolume)])
    {
      masterVolume := MasterVolume.Clamp01(volume);
      ScaleLayers(masterVolume);
      EmitPair(MasterVolumeChange(masterVolume), VolumeChange(MasterScope, masterVolume));
    }

    /** The `forEach` of `setMasterVolume` (AudioController.ts:132-136): every
        layer's volume is overwritten by its product with `factor`. */
    method ScaleLayers(factor: real)
      requires Valid()
      modifies layers.Values
      ensures forall k :: k in layers ==> layers[k].State() == Scaled(old(layers[k].State()), factor)
    {
      var ls := layers;
      var pending := ls.Keys;
      while pending != {}
        invariant pending <= ls.Keys
        invariant KeyedById(ls)
        invariant forall k :: k in ls && k !in pending ==> ls[k].State() == Scaled(old(ls[k].State()), factor)
        invariant forall k :: k in pending ==> ls[k].State() == old(ls[k].State())
        decreases pending
      {
        var k :| k in pending;
        var layer := ls[k];
        var product := layer.volume * factor;
        ScaledBy(layer.State(), layer.volume, factor, product);
        layer.SetVolume(product);
        pending := pending - {k};
      }
    }


    /** `playAll()` (AudioController.ts:150-173): every layer's `play()` is
        started; if all of them resolve the engine is playing and says so,
        otherwise it is not playing, says so, reports the blocked autoplay
        and rejects with one of the refusals. `outcomes` gives the browser's
        answer for each layer. */
    method PlayAll(outcomes: map<string, Outcome>) returns (r: Outcome)
      requires Valid()
      modifies this`isPlaying, this`events, this`deliveries, layers.Values
      ensures Valid()
      ensures forall k :: k in layers ==> layers[k].State() == Played(old(layers[k].State()), OutcomeFor(outcomes, k))
      ensures r.Fail? <==> exists k :: k in layers && PlayResult(old(layers[k].State()), OutcomeFor(outcomes, k)).Fail?
      ensures r.Fail? ==> exists k :: k in layers && PlayResult(old(layers[k].State()), OutcomeFor(outcomes, k)) == r
      ensures isPlaying == r.Succeed?
      ensures r.Succeed? ==>
        && events == old(events) + [PlaybackStateChange(true)]
        && deliveries == old(deliveries) + Delivered(handlers, [PlaybackStateChange(true)])
      ensures r.Fail? ==>
        && events == old(events) + [PlaybackStateChange(false), AutoplayBlocked(AutoplayMessage)]
        && deliveries == old(deliveries) + Delivered(handlers, [PlaybackStateChange(false), AutoplayBlocked(AutoplayMessage)])
    {
      r := PlayLayers(outcomes);
      if r.Succeed? {
        isPlaying := true;
        Emit(PlaybackStateChange(true));
      } else {
        isPlaying := false;
        EmitPair(PlaybackStateChange(false), AutoplayBlocked(AutoplayMessage));
      }
    }

    /** The `play()` calls of `playAll` and what `Promise.all` makes of them. */
    method PlayLayers(outcomes: map<string, Outcome>) returns (r: Outcome)
      requires Valid()
      modifies layers.Values
      ensures forall k :: k in layers ==> layers[k].State() == Played(old(layers[k].State()), OutcomeFor(outcomes, k))
      ensures r.Fail? <==> exists k :: k in layers && PlayResult(old(layers[k].State()), OutcomeFor(outcomes, k)).Fail?
      ensures r.Fail? ==> exists k :: k in layers && PlayResult(old(layers[k].State()), OutcomeFor(outcomes, k)) == r
    {
      var ls := layers;
      var pending := ls.Keys;
      r := Succeed;
      ghost var failedAt := "";
      while pending != {}
        invariant pending <= ls.Keys
        invariant KeyedById(ls)
        invariant forall k :: k in ls && k !in pending ==> ls[k].State() == Played(old(ls[k].State()), OutcomeFor(outcomes, k))
        invariant forall k :: k in pending ==> ls[k].State() == old(ls[k].State())
        invariant r.Succeed? ==> forall k :: k in ls && k !in pending ==> PlayResult(old(ls[k].State()), OutcomeFor(outcomes, k)).Succeed?
        invariant r.Fail? ==> failedAt in ls && PlayResult(old(ls[failedAt].State()), OutcomeFor(outcomes, failedAt)) == r
        decreases pending
      {
        var k :| k in pending;
        var played := PlayOne(ls, k, OutcomeFor(outcomes, k));
        if played.Fail? && r.Succeed? {
          r := played;
          failedAt := k;
        }
        pending := pending - {k};
      }
    }

    /** `pauseAll()` (AudioController.ts:175-182). */
    method PauseAll()
      requires Valid()
      modifies this`isPlaying, this`events, this`deliveries, layers.Values
      ensures Valid()
      ensures forall k :: k in layers ==> layers[k].State() == Paused(old(layers[k].State()))
      ensures !isPlaying
      ensures events == old(events) + [PlaybackStateChange(false)]
      ensures deliveries == old(deliveries) + Delivered(handlers, [PlaybackStateChange(false)])
    {
      PauseLayers();
      isPlaying := false;
      Emit(PlaybackStateChange(false));
    }

    /** The `forEach` of `pauseAll`. */
    method PauseLayers()
      requires Valid()
      modifies layers.Values
      ensures forall k :: k in layers ==> layers[k].State() == Paused(old(layers[k].State()))
    {
      var ls := layers;
      var pending := ls.Keys;
      while pending != {}
        invariant pending <= ls.Keys
        invariant KeyedById(ls)
        invariant forall k :: k in ls && k !in pending ==> ls[k].State() == Paused(old(ls[k].State()))
        invariant forall k :: k in pending ==> ls[k].State() == old(ls[k].State())
        decreases pending
      {
        var k :| k in pending;
        PauseOne(ls, k);
        pending := pending - {k};
      }
    }

    /** `toggleSolo(layerId)` (AudioController.ts:184-213): an unknown
        identifier is ignored; otherwise every layer takes its `SoloStep`
        and `soloChange` reports the toggled layer's new flag. */
    method ToggleSolo(layerId: string)
      requires Valid()
      modifies this`events, this`deliveries, layers.Values
      ensures Valid()
      ensures layerId !in layers ==> events == old(events) && deliveries == old(deliveries)
      ensures layerId in layers ==>
        var soloing := !old(layers[layerId].solo);
        && (forall k :: k in layers ==> layers[k].State() == SoloStep(old(layers[k].State()), k == layerId, soloing))
        && events == old(events) + [SoloChange(layerId, soloing)]
        && deliveries == old(deliveries) + Delivered(handlers, [SoloChange(layerId, soloing)])
    {
      if layerId !in layers {
        return;
      }
      var soloing := !layers[layerId].solo;
      if soloing {
        SoloOthers(layerId);
      } else {
        UnsoloAll();
      }
      Emit(SoloChange(layerId, soloing));
    }

    /** The soloing branch of `toggleSolo`: every other layer is silenced by
        the `forEach` (which skips the layer whose `id` is `layerId`), then
        the toggled layer is soloed. */
    method SoloOthers(layerId: string)
      requires Valid() && layerId in layers
      modifies layers.Values
      ensures forall k :: k in layers ==> layers[k].State() == SoloStep(old(layers[k].State()), k == layerId, true)
    {
      var ls := layers;
      var pending := ls.Keys - {layerId};
      while pending != {}
        invariant pending <= ls.Keys && layerId !in pending
        invariant KeyedById(ls)
        invariant forall k :: k in ls && k !in pending && k != layerId ==> ls[k].State() == SoloStep(old(ls[k].State()), false, true)
        invariant forall k :: k in pending ==> ls[k].State() == old(ls[k].State())
        invariant ls[layerId].State() == old(ls[layerId].State())
        decreases pending
      {
        var k :| k in pending;
        StepOther(ls, k, true);
        pending := pending - {k};
      }
      SoloTarget(ls, layerId);
    }

    /** The un-soloing branch of `toggleSolo`: every layer is enabled and
        un-soloed. */
    method UnsoloAll()
      requires Valid()
      modifies layers.Values
      ensures forall k :: k in layers ==> layers[k].State() == SoloStep(old(layers[k].State()), false, false)
    {
      var ls := layers;
      var pending := ls.Keys;
      while pending != {}
        invariant pending <= ls.Keys
        invariant KeyedById(ls)
        invariant forall k :: k in ls && k !in pending ==> ls[k].State() == SoloStep(old(ls[k].State()), false, false)
        invariant forall k :: k in pending ==> ls[k].State() == old(ls[k].State())
        decreases pending
      {
        var k :| k in pending;
        StepOther(ls, k, false);
        pending := pending - {k};
      }
    }

    /** `clearAll()` (AudioController.ts:215-223): every layer is destroyed
        and forgotten, and the engine stops. */
    method ClearAll()
      requires Valid()
      modifies this`layers, this`isPlaying, this`events, this`deliveries, layers.Values
      ensures Valid()
      ensures layers == map[] && LayerCount() == 0 && !isPlaying
      ensures forall k :: k in old(layers) ==> old(layers)[k].State() == Destroyed(old(layers[k].State()))
      ensures events == old(events) + [PlaybackStateChange(false)]
      ensures deliveries == old(deliveries) + Delivered(handlers, [PlaybackStateChange(false)])
    {
      DestroyLayers();
      layers := map[];
      isPlaying := false;
      Emit(PlaybackStateChange(false));
    }

    /** The `forEach` of `clearAll`. */
    method DestroyLayers()
      requires Valid()
      modifies layers.Values
      ensures forall k :: k in layers ==> layers[k].State() == Destroyed(old(layers[k].State()))
    {
      var ls := layers;
      var pending := ls.Keys;
      while pending != {}
        invariant pending <= ls.Keys
        invariant KeyedById(ls)
        invariant forall k :: k in ls && k !in pending ==> ls[k].State() == Destroyed(old(ls[k].State()))
        invariant forall k :: k in pending ==> ls[k].State() == old(ls[k].State())
        decreases pending
      {
        var k :| k in pending;
        DestroyOne(ls, k);
        pending := pending - {k};
      }
    }
  }
}
