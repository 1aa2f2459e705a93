/** The records of types/sound.ts, types/mix.ts and types/audio.ts.
    A TypeScript `number` is a `real`; a `string` is a `seq<char>`. */
module Types {

  /** A catalog entry (types/sound.ts `SoundDefinition`). The icon, colour and
      description only drive rendering and are not part of this model. */
  datatype SoundDefinition = SoundDefinition(
    id: string,
    name: string,
    category: string,
    mainPath: string,
    gluePath: string)

  /** A live layer as the engine reports it (types/sound.ts `SoundLayer`);
      `volume` is a linear gain meant to lie in [0, 1]. */
  datatype SoundLayer = SoundLayer(
    id: string,
    soundId: string,
    soundName: string,
    category: string,
    volume: real,
    enabled: bool,
    solo: bool)

  /** A layer as a saved mix stores it (types/mix.ts `MixLayer`);
      `volume` is a percentage meant to lie in [0, 100]. */
  datatype MixLayer = MixLayer(
    soundId: string,
    soundName: string,
    category: string,
    volume: real,
    enabled: bool)

  /** A saved mix (types/mix.ts `Mix`); the timestamps are ISO 8601 strings. */
  datatype Mix = Mix(
    id: string,
    name: string,
    layers: seq<MixLayer>,
    createdAt: string,
    updatedAt: string,
    tags: seq<string>)

  /** types/audio.ts `LoadingState`. */
  datatype LoadingState = Idle | Loading | Ready | Error

  /** What a rejected promise carries: the `code` and `message` of the error. */
  datatype Fault = Fault(code: int, message: string)

  /** The outcome of an asynchronous media operation (`load` or `play`),
      supplied to the model from outside since the browser decides it. */
  datatype Outcome = Succeed | Fail(fault: Fault)
}
