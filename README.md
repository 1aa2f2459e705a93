# Ambient mixer core in Dafny

This project models the core of an ambient-sound mixer web application:

- the audio engine (`AudioController`), which owns the live sound layers, the master volume, the global playing flag and an event emitter;
- the individual layer (`AudioLayer`), which drives a looping "main" audio element and an optional one-shot "glue" element;
- the volume conversions (`MasterVolume`) between linear gain, percentage and decibels;
- the conversion between live layers and saved mixes (`MixSerializer`);
- the validation of saved mixes and of live layers;
- the two client stores: the engine mirror `useAudioStore` and the mix library `useMixStore`;
- the two name forms: the save dialog and the edit header;
- the library page's search and category filter.

The engine, the layer and the two forms update state in place. They are Dafny classes whose methods are specified by pure functions on the old state. The layer's state is the record `AudioLayers.LayerState`. The engine's specifications are `Attached`, `Installed`, `SoloStep`, `Scaled` and `Delivered`. The `forEach` loops over the layer table are `while` loops over the pending keys.

The stores, the serializer, the volume conversions and the library filter are pure. They are functions over datatypes, with lemmas relating them.

Every event the engine emits is appended to the engine's `events` log. Every handler call an emission makes is appended to `deliveries`. Handlers are identified by a number, because JavaScript compares functions by reference.

Things the browser or the clock decides are parameters of the operations:

- the outcome of the elements' `load()` and `play()`;
- the random and time-based parts of identifiers;
- ISO timestamps.

Files:

| file | models |
|---|---|
| `types.dfy` | the records of `types/` |
| `wrappers.dfy`, `lists.dfy`, `text.dfy` | `Option`, `Array.prototype.filter`, and the string operations `trim`, `toLowerCase` and `includes` |
| `master_volume.dfy` | `lib/audio/MasterVolume.ts` |
| `audio_layer.dfy` | `lib/audio/AudioLayer.ts` |
| `audio_controller.dfy` | `lib/audio/AudioController.ts` |
| `mix_serializer.dfy` | `lib/storage/MixSerializer.ts` |
| `mix_validation.dfy`, `layer_validation.dfy` | `lib/validation/` |
| `audio_store.dfy`, `mix_store.dfy` | `lib/state/` |
| `forms.dfy`, `save_mix_dialog.dfy`, `edit_header.dfy` | the two name forms |
| `library.dfy` | `app/library/page.tsx` |

## Model

| member | source | states |
|---|---|---|
| MasterVolume.Clamp | lib/audio/MasterVolume.ts:16 | `Math.max(lo, Math.min(hi, x))` lies in [lo, hi]. It is `x` inside the range and the nearer bound outside it. |
| MasterVolume.Clamp01 | lib/audio/AudioLayer.ts:50 | The gain clamp lands in [0, 1]. It is the identity on [0, 1]. |
| MasterVolume.Round | lib/audio/MasterVolume.ts:12 | `Math.round` gives the integer `r` with `r <= x + 0.5 < r + 1`, so halves round up. |
| MasterVolume.ApplyMasterVolume | lib/audio/MasterVolume.ts:7-9 | The result is always in [0, 1]. It is the plain product when both inputs are in [0, 1]. |
| MasterVolume.ProductInUnit | lib/audio/MasterVolume.ts:8 | The product of two gains in [0, 1] is in [0, 1]. |
| MasterVolume.VolumeToPercentage | lib/audio/MasterVolume.ts:11-13 | The percentage is `volume * 100` rounded half up, with no clamping. |
| MasterVolume.PercentageToVolume | lib/audio/MasterVolume.ts:15-17 | The result is in [0, 1]. It is 0 at or below 0 and 1 at or above 100. Otherwise it is exactly `percentage / 100`. |
| MasterVolume.PercentageInRange | lib/audio/MasterVolume.ts:11-13 | A gain in [0, 1] gives a whole percentage in [0, 100]. |
| MasterVolume.PercentageNotClamped | lib/audio/MasterVolume.ts:11-13 | Out-of-range gains pass through: 1.5 gives 150 and -0.2 gives -20. |
| MasterVolume.PercentageRoundTrip | lib/audio/MasterVolume.ts:11-17 | Converting a gain in [0, 1] to a percentage and back is off by at most 0.005. |
| MasterVolume.VolumeToDecibels | lib/audio/MasterVolume.ts:19-22 | The result is `-Infinity` exactly when the volume is 0. |
| MasterVolume.DecibelsToVolume | lib/audio/MasterVolume.ts:24-27 | `-Infinity` decibels converts to volume 0. |
| MasterVolume.SilenceRoundTrip | lib/audio/MasterVolume.ts:19-27 | Volume 0 survives the round trip through decibels, whatever the logarithm. |
| MasterVolume.DecibelsRoundTrip | lib/audio/MasterVolume.ts:19-27 | A non-zero volume survives the round trip through decibels wherever `pow10` inverts `log10`. |
| AudioLayers.NewMedia | lib/audio/AudioLayer.ts:33-35 | A new audio element is paused at position 0. |
| AudioLayers.Apply | lib/audio/AudioLayer.ts:119 | `pause()` on an element clears its playing flag and nothing else. |
| AudioLayers.ApplyGlue | lib/audio/AudioLayer.ts:120-122 | An operation reaches the glue element exactly when one exists. |
| AudioLayers.Created | lib/audio/AudioLayer.ts:19-43 | The public fields equal the record, volume unclamped, and the state is `idle`. The main element loops at the layer's volume. A non-looping glue element exists exactly when the glue path is non-empty. Nothing is playing. |
| AudioLayers.WithVolume | lib/audio/AudioLayer.ts:49-55 | The stored volume is the value clamped into [0, 1]. Both elements receive the same volume. The glue element neither appears nor disappears. |
| AudioLayers.Paused | lib/audio/AudioLayer.ts:118-123 | Both elements are stopped. Positions are kept. |
| AudioLayers.WithEnabled | lib/audio/AudioLayer.ts:61-66 | The flag is set. Disabling silences both elements. Volume, solo flag and loading state are unchanged. |
| AudioLayers.WithSolo | lib/audio/AudioLayer.ts:72-74 | Only the solo flag of the public state changes. |
| AudioLayers.Stopped | lib/audio/AudioLayer.ts:125-131 | Both elements are silent and rewound to 0. Sources and volumes are kept. |
| AudioLayers.Destroyed | lib/audio/AudioLayer.ts:133-138 | Both elements are silent, rewound and have an empty source. The public state and the loading state are unchanged. |
| AudioLayers.PlayResult | lib/audio/AudioLayer.ts:107-116 | `play()` fails exactly when the layer is enabled and the browser refuses. The failure is the browser's. |
| AudioLayers.Played | lib/audio/AudioLayer.ts:107-116 | A disabled layer or a refused play leaves everything as it was. Otherwise the main element plays. |
| AudioLayers.LoadResult | lib/audio/AudioLayer.ts:80-105 | `load()` succeeds exactly when the main element loads and the glue element, if any, loads. The main element's failure takes precedence. |
| AudioLayers.Loaded | lib/audio/AudioLayer.ts:100-102 | The loading state becomes `ready` on success and `error` on failure. |
| AudioLayers.VolumeOnlyChangesVolumes | lib/audio/AudioLayer.ts:49-55 | The volume setter changes nothing but the three volumes. |
| AudioLayers.PauseOnlyStopsElements | lib/audio/AudioLayer.ts:118-123 | `pause()` changes nothing but the elements' playing flags. |
| AudioLayers.EnableOnlySetsFlag | lib/audio/AudioLayer.ts:61-66 | Enabling sets the flag and does not start playback. |
| AudioLayers.SoloOnlySetsFlag | lib/audio/AudioLayer.ts:72-74 | The solo setter changes nothing but the flag. |
| AudioLayers.StopOnlyTouchesElements | lib/audio/AudioLayer.ts:125-131 | `stop()` changes only the elements. |
| AudioLayers.PlayOnlyStartsMain | lib/audio/AudioLayer.ts:107-116 | `play()` changes nothing but the main element's playing flag. |
| AudioLayers.LoadOnlySetsState | lib/audio/AudioLayer.ts:80-105 | `load()` changes nothing but the loading state. |
| AudioLayers.PauseIdempotent | lib/audio/AudioLayer.ts:118-123 | Pausing twice equals pausing once. |
| AudioLayers.DisabledStaysSilent | lib/audio/AudioLayer.ts:61-116 | A disabled layer is silent. A later `play()` succeeds without changing it. |
| AudioLayers.AudioLayer.ToJSON | lib/audio/AudioLayer.ts:141-151 | `toJSON()` is the public part of the layer's state. |
| AudioLayers.AudioLayer.constructor | lib/audio/AudioLayer.ts:19-43 | The new object's state is `Created(...)`. |
| AudioLayers.AudioLayer.SetVolume | lib/audio/AudioLayer.ts:49-55 | The new state is `WithVolume(old state, value)`. |
| AudioLayers.AudioLayer.SetEnabled | lib/audio/AudioLayer.ts:61-66 | The new state is `WithEnabled(old state, value)`. |
| AudioLayers.AudioLayer.SetSolo | lib/audio/AudioLayer.ts:72-74 | The new state is `WithSolo(old state, value)`. |
| AudioLayers.AudioLayer.Load | lib/audio/AudioLayer.ts:80-105 | The result is `LoadResult` and the new state is `Loaded`, both of the old state. |
| AudioLayers.AudioLayer.Play | lib/audio/AudioLayer.ts:107-116 | The result is `PlayResult` and the new state is `Played`, both of the old state. |
| AudioLayers.AudioLayer.Pause | lib/audio/AudioLayer.ts:118-123 | The new state is `Paused(old state)`. |
| AudioLayers.AudioLayer.Stop | lib/audio/AudioLayer.ts:125-131 | The new state is `Stopped(old state)`. |
| AudioLayers.AudioLayer.Destroy | lib/audio/AudioLayer.ts:133-138 | The new state is `Destroyed(old state)`. |
| AudioControllers.FailureEvents | lib/audio/AudioController.ts:88-97 | The `catch` block emits `loadingStateChange` with state `error`, then `loadError` with a non-empty message. |
| AudioControllers.ErrorDetail | lib/audio/AudioController.ts:92-95 | The code is kept. An empty message becomes a non-empty default, and a non-empty message is kept. |
| AudioControllers.FindSound | lib/audio/AudioController.ts:53 | Nothing is found exactly when no catalog entry has the id. Otherwise the result is the first entry with the id. |
| AudioControllers.Subscribed | lib/audio/AudioController.ts:28-33 | `on` appends the handler to that event's list. Every other list is unchanged. |
| AudioControllers.IndexOf | lib/audio/AudioController.ts:38 | `indexOf` is -1 exactly when the handler is absent. Otherwise it is the handler's first position. |
| AudioControllers.Unsubscribed | lib/audio/AudioController.ts:35-43 | `off` changes only that event's list, by removing the handler's first occurrence. |
| AudioControllers.OffRemovesOne | lib/audio/AudioController.ts:35-43 | `off` removes exactly one registration, the earliest: one shorter, the multiset minus one. An absent handler leaves the list unchanged. |
| AudioControllers.OnThenOff | lib/audio/AudioController.ts:28-43 | Subscribing a new handler and then unsubscribing it restores every event's list. |
| AudioControllers.CallsInOrder | lib/audio/AudioController.ts:45-50 | `emit` calls every registered handler once, in registration order. |
| AudioControllers.DeliveredAppend | lib/audio/AudioController.ts:45-50 | Emitting one batch of events and then another makes the calls of the first batch followed by those of the second. |
| AudioControllers.UnheardEvent | lib/audio/AudioController.ts:46-48 | An event with no handlers makes no calls. |
| AudioControllers.NewLayer | lib/audio/AudioController.ts:58-70 | A new layer is enabled, not solo, `idle`, with the requested volume and the catalog entry's sound. |
| AudioControllers.ScaledVolume | lib/audio/AudioController.ts:132-136 | For a layer volume and a master volume both in [0, 1], the new layer volume is their product. Nothing else in the public state changes. |
| AudioControllers.MasterCompounds | lib/audio/AudioController.ts:132-136 | The master volume compounds. Masters 0.5 and then 0.8 take a layer at 0.5 to 0.2, not to 0.4. |
| AudioControllers.SoloExclusive | lib/audio/AudioController.ts:184-213 | Soloing leaves the toggled layer solo and enabled. Every other layer becomes neither and is silent. Un-soloing enables every layer and clears every solo flag. Volumes never change. |
| AudioControllers.SoloTwice | lib/audio/AudioController.ts:184-213 | A toggle that solos leaves the layer solo. Soloing and then un-soloing ends with every layer enabled and none solo. |
| AudioControllers.PlayOne | lib/audio/AudioController.ts:152-154 | One layer's `play()` returns `PlayResult`, leaves that layer `Played`, and leaves every other layer unchanged. |
| AudioControllers.PauseOne | lib/audio/AudioController.ts:176 | One layer becomes `Paused`. The others are unchanged. |
| AudioControllers.DestroyOne | lib/audio/AudioController.ts:216 | One layer becomes `Destroyed`. The others are unchanged. |
| AudioControllers.StepOther | lib/audio/AudioController.ts:192-205 | One non-target layer takes the solo step for the current direction. The others are unchanged. |
| AudioControllers.SoloTarget | lib/audio/AudioController.ts:198-199 | The toggled layer becomes solo and enabled. The others are unchanged. |
| AudioControllers.AudioController.constructor | lib/audio/AudioController.ts:9-13 | The engine starts with no layers, master volume 0.8, not playing, and no handlers. |
| AudioControllers.AudioController.On | lib/audio/AudioController.ts:28-33 | The handler table becomes `Subscribed(old, name, h)`. |
| AudioControllers.AudioController.Off | lib/audio/AudioController.ts:35-43 | The handler table becomes `Unsubscribed(old, name, h)`. |
| AudioControllers.AudioController.Emit | lib/audio/AudioController.ts:45-50 | The event is logged. The deliveries grow by one call per registered handler, in order. |
| AudioControllers.AudioController.AddLayer | lib/audio/AudioController.ts:52-100 | The result, the events, the deliveries and the layer table follow `AddOutcome`. An unknown sound rejects with nothing emitted. A failed load emits loading, error and `loadError`, and keeps nothing. A refused autoplay rejects but keeps the layer. Any kept layer is fresh and stored under its id, and the layer count grows by one unless that id was already in use. |
| AudioControllers.AudioController.Attach | lib/audio/AudioController.ts:72-98 | The `try`/`catch` of `addLayer` follows `Attached`: the events, the result, and whether and how the layer is stored. |
| AudioControllers.AudioController.Install | lib/audio/AudioController.ts:75-98 | After a successful load, the layer is stored and the steps follow `Installed`: `ready` and `layerAdded` are emitted, then autoplay runs while playing, and a refused autoplay is reported. |
| AudioControllers.AudioController.ReportFailure | lib/audio/AudioController.ts:87-98 | The two failure events are emitted in order. |
| AudioControllers.AudioController.Admit | lib/audio/AudioController.ts:75-79 | `ready` is emitted, the layer is stored under its id, then `layerAdded` carries `toJSON()`. |
| AudioControllers.AudioController.RemoveLayer | lib/audio/AudioController.ts:102-113 | An unknown id changes nothing. A known layer is destroyed and removed, so the count drops by one, and `layerRemoved` is emitted. |
| AudioControllers.AudioController.SetLayerVolume | lib/audio/AudioController.ts:115-126 | A known layer takes the clamped volume. The event carries the unclamped volume. An unknown id changes nothing. |
| AudioControllers.AudioController.SetMasterVolume | lib/audio/AudioController.ts:128-148 | The master volume is clamped into [0, 1]. Every layer becomes `Scaled` by it. `masterVolumeChange` and a master `volumeChange` are emitted. |
| AudioControllers.AudioController.ScaleLayers | lib/audio/AudioController.ts:132-136 | Every layer becomes `Scaled` by the factor. |
| AudioControllers.AudioController.PlayAll | lib/audio/AudioController.ts:150-173 | Every layer is `Played`. The method fails exactly when some layer's `play()` fails, and the failure is one of theirs. `isPlaying` is set exactly on success. On success `playbackStateChange(true)` is emitted. On failure `playbackStateChange(false)` is emitted, then `autoplayBlocked`. |
| AudioControllers.AudioController.PlayLayers | lib/audio/AudioController.ts:152-155 | Every layer is `Played`. `Promise.all` fails exactly when some layer's `play()` fails, with that layer's failure. |
| AudioControllers.AudioController.PauseAll | lib/audio/AudioController.ts:175-182 | Every layer is `Paused`, the engine is not playing, and `playbackStateChange(false)` is emitted. |
| AudioControllers.AudioController.PauseLayers | lib/audio/AudioController.ts:176 | Every layer is `Paused`. |
| AudioControllers.AudioController.ToggleSolo | lib/audio/AudioController.ts:184-213 | An unknown id changes nothing. Otherwise every layer takes `SoloStep` towards the new flag, and `soloChange` carries the flag. |
| AudioControllers.AudioController.SoloOthers | lib/audio/AudioController.ts:191-199 | Every other layer is un-soloed and disabled. The toggled layer is soloed and enabled. |
| AudioControllers.AudioController.UnsoloAll | lib/audio/AudioController.ts:200-206 | Every layer is enabled and un-soloed. |
| AudioControllers.AudioController.ClearAll | lib/audio/AudioController.ts:215-223 | Every old layer is `Destroyed`. The table is empty, so the count is 0, the engine is not playing, and `playbackStateChange(false)` is emitted. |
| AudioControllers.AudioController.DestroyLayers | lib/audio/AudioController.ts:216 | Every layer is `Destroyed`. |
| Lists.Filter | lib/state/useAudioStore.ts:43 | `filter` keeps exactly the accepted elements of the input, and no more elements than it had. |
| Lists.FilterCounts | lib/state/useAudioStore.ts:43 | Counted as a multiset, `filter` keeps every occurrence of an accepted value and none of a refused one. |
| Lists.FilterAppend | lib/state/useMixStore.ts:41 | Filtering distributes over concatenation. |
| Lists.FilterKeepsAll | lib/state/useMixStore.ts:41 | When every element is accepted, the list comes back unchanged. |
| Lists.FilterIdempotent | lib/state/useMixStore.ts:41 | Filtering twice equals filtering once. |
| Lists.FilterDistinct | components/mixer/SaveMixDialog.tsx:50 | Filtering a list without repeats gives a list without repeats. |
| Lists.FilterIsSubsequence | app/library/page.tsx:34 | What `filter` keeps is an order-preserving subsequence of the input. |
| Text.SkipSpaces | components/mixer/SaveMixDialog.tsx:42 | Returns the first non-white-space position from `i` onwards. Everything skipped is white space. |
| Text.SkipSpacesBack | components/mixer/SaveMixDialog.tsx:42 | Returns the last non-white-space end position down to `lo`. Everything skipped is white space. |
| Text.Trim | components/mixer/SaveMixDialog.tsx:42 | `trim()` is the slice of the input between a blank prefix and a blank suffix. It is empty exactly for blank input. Otherwise it starts and ends with a non-white-space character. |
| Text.Utf16Length | components/mixer/SaveMixDialog.tsx:26 | `length` counts UTF-16 code units: at least one and at most two per character. |
| Text.Utf16Append | components/mixer/SaveMixDialog.tsx:26 | The `length` of a concatenation is the sum of the lengths. |
| Text.Utf16LengthIsSize | components/mixer/SaveMixDialog.tsx:26 | `length` equals the number of characters exactly when no character lies outside the Basic Multilingual Plane. |
| Text.Utf16Slice | components/mixer/SaveMixDialog.tsx:26-32 | A slice is never longer than the whole string, in code units. |
| Text.LowerChar | app/library/page.tsx:38 | An upper-case ASCII letter becomes the letter 32 code points later. The result is never upper case. Other characters are unchanged. |
| Text.ToLower | app/library/page.tsx:38 | `toLowerCase()` lower-cases each character and keeps the length. |
| Text.Digit | lib/validation/mixValidation.ts:32 | The digit for `d` is the character `d` places after `0`. |
| Text.NatToString | lib/validation/mixValidation.ts:32 | `${n}` is a non-empty string of decimal digits whose decimal value is `n`. |
| Text.NatToStringInjective | lib/validation/mixValidation.ts:32 | Two numbers render the same exactly when they are equal. |
| MixSerializer.SerializeLayers | lib/storage/MixSerializer.ts:14-20 | Each layer keeps its sound, name, category and enabled flag. Its volume becomes `Math.round(volume * 100)`. |
| MixSerializer.SerializeMix | lib/storage/MixSerializer.ts:6-30 | The saved mix has the given name and tags, equal creation and update times, and the serialised layers. |
| MixSerializer.DeserializeMixLayers | lib/storage/MixSerializer.ts:32-42 | Each saved layer becomes a live layer with id `layer-<index>-<stamp>`. Its fields are copied, its volume is the percentage divided by 100, unclamped, and it is not solo. |
| MixSerializer.UpdateMixTimestamp | lib/storage/MixSerializer.ts:44-49 | Only `updatedAt` changes. |
| MixSerializer.LayersRoundTrip | lib/storage/MixSerializer.ts:14-42 | Serialising live layers with volumes in [0, 1] and loading them back keeps the count and each layer's sound id, sound name, category and enabled flag. Each volume is off by at most 0.005. The id and the solo flag are not kept: reloading assigns a fresh id and clears solo. |
| MixSerializer.LayerIdsDistinct | lib/storage/MixSerializer.ts:34 | Layers at different positions of one reload get different ids. |
| MixSerializer.StoredRoundTrip | lib/storage/MixSerializer.ts:14-42 | Loading saved layers with whole-number percentages and serialising them again gives the same saved layers. |
| MixValidation.ValidateMix | lib/validation/mixValidation.ts:10-48 | The errors are exactly `MixErrors(mix)`, in order. The mix is valid exactly when there are no errors, and exactly when it is `WellFormed`. |
| MixValidation.CheckNameAndCount | lib/validation/mixValidation.ts:13-27 | The name errors are pushed, then the layer-count errors. |
| MixValidation.CheckLayers | lib/validation/mixValidation.ts:30-37 | The loop appends the errors of every layer, in index order. |
| MixValidation.CheckLayer | lib/validation/mixValidation.ts:31-36 | One layer's missing-sound and out-of-range errors are appended, with the 1-based position. |
| MixValidation.NoLayerErrorsIff | lib/validation/mixValidation.ts:30-37 | The layers produce no error exactly when every layer has a sound and a volume in [0, 100]. |
| MixValidation.ValidIffWellFormed | lib/validation/mixValidation.ts:10-48 | A mix produces no error exactly when it is well formed: a non-blank name whose `length` is at most 100 UTF-16 code units, 1 to 10 valid layers, at most 10 tags. |
| MixValidation.SoundMissingReported | lib/validation/mixValidation.ts:31-33 | Every layer without a sound is reported under its 1-based position. |
| MixValidation.VolumeOutOfRangeReported | lib/validation/mixValidation.ts:34-36 | Every layer whose percentage is out of range is reported under its 1-based position. |
| MixValidation.NameReportedFirst | lib/validation/mixValidation.ts:14-16 | The first error is `NameRequired` exactly when the name is blank. |
| MixValidation.NameRequiredOnlyFromName | lib/validation/mixValidation.ts:14-16 | `NameRequired` is reported only for a blank name. |
| MixValidation.NoNameRequiredInLayers | lib/validation/mixValidation.ts:30-37 | The layer checks never report `NameRequired`. |
| LayerValidation.ValidateLayer | lib/validation/layerValidation.ts:6-29 | The layer is valid exactly when there are no errors, exactly when it has a sound and a gain in [0, 1]. Each error is reported exactly when its condition holds, the sound error comes first, and no message appears twice: there is one error per failed check. |
| AudioStore.Merge | lib/state/useAudioStore.ts:50 | `{...layer, ...updates}` takes each of the seven fields from the update when the update sets it, and from the layer otherwise. |
| AudioStore.Initial | lib/state/useAudioStore.ts:22-25 | The store starts not playing, with master volume 0.8, no layers and no loading states. |
| AudioStore.SetIsPlaying | lib/state/useAudioStore.ts:27-29 | Only the playing flag changes. |
| AudioStore.SetMasterVolume | lib/state/useAudioStore.ts:31-33 | The stored master volume is the input clamped into [0, 1]. Nothing else changes. |
| AudioStore.AddLayer | lib/state/useAudioStore.ts:35-39 | The layer is appended after the old layers, with no duplicate check. Nothing else changes. |
| AudioStore.RemoveLayer | lib/state/useAudioStore.ts:41-45 | Every layer with the id is removed. The others stay, in order. |
| AudioStore.UpdateWhere | lib/state/useAudioStore.ts:49-51 | Every layer with the id takes the merge. The others are unchanged. The length is kept. |
| AudioStore.UpdateLayer | lib/state/useAudioStore.ts:47-53 | Only the layer list changes, as `UpdateWhere` says. |
| AudioStore.SetLoadingState | lib/state/useAudioStore.ts:55-62 | The sound's entry is set. Every other entry and field is unchanged. |
| AudioStore.ClearLayers | lib/state/useAudioStore.ts:64-66 | No layers and not playing. The master volume and loading states are kept. |
| AudioStore.RemoveUnknownLayer | lib/state/useAudioStore.ts:41-45 | Removing an id no layer has changes nothing. |
| AudioStore.RemoveUndoesAdd | lib/state/useAudioStore.ts:35-45 | Removing a layer just added under a new id restores the store. |
| AudioStore.RemoveTwice | lib/state/useAudioStore.ts:41-45 | Removing the same id twice equals removing it once. |
| AudioStore.UpdateUnknownLayer | lib/state/useAudioStore.ts:47-53 | Updating an id no layer has changes nothing. |
| AudioStore.UpdateTwice | lib/state/useAudioStore.ts:47-53 | Applying the same update twice equals applying it once. |
| AudioStore.MixerPercentageSaturates | app/mixer/page.tsx:38-42 | The mixer page passes the store a percentage, so any master volume of 0.01 or more is stored as 1. |
| MixStore.Merge | lib/state/useMixStore.ts:33 | Each of `id`, `name`, `layers`, `createdAt` and `tags` comes from the update when it sets it, and from the mix otherwise. `updatedAt` is always the clock reading, even when the update sets it. |
| MixStore.Initial | lib/state/useMixStore.ts:20-21 | The store starts with no mixes and no current mix. |
| MixStore.AddMix | lib/state/useMixStore.ts:23-27 | The mix is appended after the old mixes. The current mix is kept. |
| MixStore.UpdateWhere | lib/state/useMixStore.ts:31-35 | Every mix with the id takes the merge. The others are unchanged. The length is kept. |
| MixStore.UpdateMix | lib/state/useMixStore.ts:29-37 | Only the mix list changes, as `UpdateWhere` says. |
| MixStore.DeleteMix | lib/state/useMixStore.ts:39-44 | Every mix with the id is removed and the others stay. The current mix is cleared exactly when it had that id or was already unset. |
| MixStore.Find | lib/state/useMixStore.ts:47 | `find` finds nothing exactly when no mix has the id. Otherwise it returns the first mix with the id. |
| MixStore.GetMixById | lib/state/useMixStore.ts:46-48 | Nothing is found exactly when no mix has the id. Otherwise the result is the first mix with the id. |
| MixStore.SetCurrentMix | lib/state/useMixStore.ts:50-52 | The current mix is set without checking that it exists. The mixes are unchanged. |
| MixStore.DeletedNotFound | lib/state/useMixStore.ts:39-48 | After deleting an id, `getMixById` finds nothing for it. |
| MixStore.AddedFound | lib/state/useMixStore.ts:23-48 | A mix added under a new id is found by that id. |
| MixStore.DeleteUndoesAdd | lib/state/useMixStore.ts:23-44 | Deleting a mix just added under a new id restores the list. |
| MixStore.DeleteTwice | lib/state/useMixStore.ts:39-44 | Deleting the same id twice equals deleting it once. |
| MixStore.UpdateThenFind | lib/state/useMixStore.ts:29-48 | After an update that keeps ids, `getMixById` returns the merged version of the mix it found before. |
| Forms.NameCheck | components/mixer/SaveMixDialog.tsx:21-29 | A blank name is refused first. A name whose untrimmed `length` exceeds 100 UTF-16 code units is refused next. Every other name is accepted. The edit header applies the same rule. |
| Forms.AcceptedNameTrimmed | components/mixer/SaveMixDialog.tsx:21-32 | An accepted name is passed on trimmed: non-empty, at most 100 code units, with no white space at either end. |
| SaveMixDialogs.WithTag | components/mixer/SaveMixDialog.tsx:43-44 | A tag is appended only when it is new and fewer than 10 tags exist. The list stays free of repeats and within 10. |
| SaveMixDialogs.WithoutTag | components/mixer/SaveMixDialog.tsx:49-51 | The tag is gone, every other tag stays, nothing new appears, and the result is a subsequence of the old list. The list stays free of repeats and within 10. |
| SaveMixDialogs.RemoveUndoesAdd | components/mixer/SaveMixDialog.tsx:41-51 | Removing a tag just added restores the list. |
| SaveMixDialogs.SaveMixDialog.constructor | components/mixer/SaveMixDialog.tsx:13-17 | The dialog opens with the default name, no tags, an empty tag field and no error. |
| SaveMixDialogs.SaveMixDialog.EditName | components/mixer/SaveMixDialog.tsx:105-108 | Typing sets the name and clears the error. |
| SaveMixDialogs.SaveMixDialog.EditTagInput | components/mixer/SaveMixDialog.tsx:132 | Typing sets the tag field. |
| SaveMixDialogs.SaveMixDialog.HandleSave | components/mixer/SaveMixDialog.tsx:19-39 | A refused name only sets the error. An accepted one calls `onSave` once with the trimmed name and the tags, then resets the form. |
| SaveMixDialogs.SaveMixDialog.HandleAddTag | components/mixer/SaveMixDialog.tsx:41-47 | A non-empty, new trimmed tag is appended when there is room, and the field is cleared. Otherwise nothing changes. |
| SaveMixDialogs.SaveMixDialog.HandleRemoveTag | components/mixer/SaveMixDialog.tsx:49-51 | The tags become `WithoutTag(old tags, tag)`. |
| SaveMixDialogs.SaveMixDialog.ClickSuggestion | components/mixer/SaveMixDialog.tsx:183-187 | The tags become `WithTag(old tags, tag)`. |
| SaveMixDialogs.SaveMixDialog.HandleKeyDown | components/mixer/SaveMixDialog.tsx:41-62 | Enter with a non-blank tag field behaves as the add-tag handler: a new tag with room is added and the field cleared, otherwise nothing changes. Enter with a blank tag field behaves as the save handler: an accepted name is saved and the form reset, a refused one sets the error and keeps the fields. Other keys change nothing. |
| SaveMixDialogs.SaveMixDialog.HandleTagKeyDown | components/mixer/SaveMixDialog.tsx:133-138 | Enter in the tag field adds the trimmed input and clears the field when it is non-empty, new and there is room; otherwise neither the tags nor the field change. Other keys change nothing. |
| EditHeaders.EditHeader.constructor | components/edit/EditHeader.tsx:12-15 | The header starts not editing, with the property's name and no error. |
| EditHeaders.EditHeader.SyncName | components/edit/EditHeader.tsx:18-20 | A property value that differs from the previous one is copied into the field. An unchanged value leaves the typed text alone. |
| EditHeaders.EditHeader.StartEditing | components/edit/EditHeader.tsx:106 | The edit button starts editing. |
| EditHeaders.EditHeader.EditName | components/edit/EditHeader.tsx:67-70 | Typing sets the field and clears the error. |
| EditHeaders.EditHeader.HandleSaveName | components/edit/EditHeader.tsx:22-36 | A refused name sets the error and keeps the editor open. An accepted one calls `onNameChange` once with the trimmed name and closes the editor. |
| EditHeaders.EditHeader.HandleCancel | components/edit/EditHeader.tsx:38-42 | The field is reset to the property and the editor closes without an error. |
| EditHeaders.EditHeader.HandleKeyDown | components/edit/EditHeader.tsx:44-50 | Enter saves, Escape cancels, other keys change nothing. |
| Library.FilteredMixes | app/library/page.tsx:33-50 | Nothing is listed before hydration. Every listed mix is in the store and passes both tests. After hydration, every mix that passes both tests is listed. |
| Library.ListedIff | app/library/page.tsx:33-50 | A mix is listed exactly when the page has hydrated, the mix is stored, and it matches both the search and the category. |
| Library.ListedInOrder | app/library/page.tsx:34 | The listed mixes keep the store's order. |
| Library.NoFilterListsAll | app/library/page.tsx:36-46 | With an empty query and the `All` chip, the hydrated page lists every mix. |
| Library.ToLowerIdempotent | app/library/page.tsx:38 | Lower-casing twice equals lower-casing once. |
| Library.SearchIgnoresCase | app/library/page.tsx:36-41 | A query and its lower-cased form match the same mixes. |

## Left out

- HTMLAudioElement internals: decoding, the `canplaythrough` and `error` listeners, and actual playback. An element is a record of its playing flag, position, volume, loop flag and source. The browser's answer to `load()` and `play()` is an `Outcome` parameter. The element's own range check on `volume` is not modelled either: a real media element throws when it is given a volume outside [0, 1], as the constructor's unclamped write of such a volume would do.
- Asynchrony. `addLayer` and `playAll` are modelled as if each `await` resolved in program order. Nothing else runs between the steps. Handler re-entrancy and handlers that throw are not modelled.
- AudioControllers.AudioController.PlayAll: `Promise.all` rejects with the first refusal in time. The model returns the refusal of the first failing layer it visits, and promises only that the result is one of the layers' refusals. Iteration order of the layer `Map` is likewise not modelled: the `forEach` loops visit the keys in an unspecified order, which matters nowhere because each step touches one layer.
- Event names are the nine the engine emits. The source's handler table accepts any string, but a handler under any other name is never called.
- Event payload timestamps, `Date.now()`, `Math.random()` and `new Date().toISOString()` are left out. Where they form part of an identifier or timestamp, they are a string parameter (`stamp`, `now`, `id`).
- MixSerializer.DeserializeMixLayers: `Date.now()` is read once per layer in the source. The model uses one `stamp` for the whole call, so LayerIdsDistinct covers readings that agree. Layers read at different milliseconds differ in the stamp as well, which the model does not capture.
- MasterVolume.VolumeToDecibels and MasterVolume.DecibelsToVolume take `Math.log10` and `Math.pow(10, ·)` as function parameters. Floating-point arithmetic is exact real arithmetic throughout, so rounding error in `* 100`, `/ 100` and the master product is not modelled.
- Text.ToLower lower-cases ASCII letters only. The full Unicode case mapping of `toLowerCase()` is not modelled.
- `localStorage` persistence of the mix store, `get`/`set` plumbing, the React rendering, routing, animation and the dialog's `isOpen`/`onClose` are not modelled.
- LayerValidation.ValidateLayer: the three `typeof` checks cannot fail on a typed record and are not modelled.
- AudioStore.Merge and MixStore.Merge: an update that sets a field explicitly to `undefined` is treated like one that leaves it out.
- `isHydrated` on the library page is a parameter. The effect that sets it is not modelled.
- The `activeLayers` getter of the engine and `getLayerCount()` are read directly from the `layers` field.

## Notes on the code

These points are where the code's behaviour is easy to misread. The model follows the code.

- The engine's and the store's default master volume, and `addLayer`'s default layer volume, are 0.8.
- The `AudioLayer` constructor copies the record's volume without clamping. Only the setter clamps. See `AudioLayers.Created`.
- `volumeToPercentage` does not clamp. See `MasterVolume.PercentageNotClamped`.
- A layer whose autoplay is refused in `addLayer` stays in the table, although `addLayer` rejects. See `AudioControllers.AudioController.Install`.
- `setLayerVolume` clamps the layer's volume but emits the volume as given.
- `setMasterVolume` overwrites each layer's volume with its product with the master. Repeated master changes therefore compound. See `AudioControllers.MasterCompounds`.
- The mixer page's `volumeChange` handler passes `volumeToPercentage(volume)` to the store's `setMasterVolume`, which expects a gain in [0, 1] and clamps. Any master of one per cent or more is stored as full gain. See `AudioStore.MixerPercentageSaturates`.
- Both name forms measure the 100-unit limit with `length` (UTF-16 code units) on the untrimmed name but pass the trimmed name on.
