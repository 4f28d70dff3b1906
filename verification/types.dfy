/**
 * The shared vocabulary of the application: the style, shading and
 * background enumerations, JavaScript's nullable values, and the values a
 * JavaScript `throw` can carry.
 */
module Types {

  /** A value that may be `null` (or `undefined`) in the source. */
  datatype Option<+T> = None | Some(value: T)

  /** The outcome of a call that either returns or throws. */
  datatype Result<+T, +E> = Ok(value: T) | Err(error: E)

  /**
   * The painting styles. The first six are the enumeration of the types
   * module; ILLUSTRATION is the seventh member the prompt builder and the
   * reducer refer to.
   */
  datatype VectorStyle =
    | CARTOON
    | GHIBLI
    | PIXAR
    | THREE_D
    | SKETCH
    | BLACK_AND_WHITE
    | ILLUSTRATION

  /** How much shading a sketch carries. */
  datatype ShadingLevel = NONE | LIGHT | MEDIUM | HEAVY

  /** Keep (and restyle) the original background, or replace it by a solid colour. */
  datatype BackgroundStyle = ORIGINAL | COLOR

  /**
   * What a `throw` carries: an `Error` object with its message, or some
   * other value (only `Error` instances have a message the code reads).
   */
  datatype Thrown = Error(message: string) | NonError
}
