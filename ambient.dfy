/** The ambient numeric services the renderer calls but whose code is not part
    of this model: the random sources and the transcendental functions of
    JavaScript's Math object.  Each is a parameter of the model. */
module Ambient {

  /** `gaussian(d)` and `uniform(d)` are the values of the d-th draw from the
      random stream (`gaussianRandom()` and `Math.random()`); the renderer
      keeps the index of the next draw.  `cos`, `sin` and `pow` stand for
      `Math.cos`, `Math.sin` and `Math.pow`. */
  datatype Env = Env(
    gaussian: nat -> real,
    uniform: nat -> real,
    cos: real -> real,
    sin: real -> real,
    pow: (real, real) -> real)

  /** The decimal form of `Math.PI`. */
  const Pi: real := 3.141592653589793
}
