/** The inference engine as the model sees it: compiled programs are opaque
    handles, and everything the engine computes comes in as a parameter. */
module Engine {

  /** A compiled program of the inference engine (a `StanModel`). */
  datatype Handle = Handle(id: nat)
}
