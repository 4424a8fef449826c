/** The hidden-layer activation. The sigmoid and its first four derivatives come
    from a module that is not part of this model, so they are taken as five given
    functions, with no relation between them assumed. */
module Activation {
  import opened Jets

  datatype Sigmoid = Sigmoid(s0: real -> real, s1: real -> real, s2: real -> real,
                             s3: real -> real, s4: real -> real)

  /** The activation applied to a jet: the chain rule, to the orders a jet keeps. */
  function Lift(act: Sigmoid, a: Jet): Jet
  {
    var z := a.c00;
    Compose(act.s0(z), act.s1(z), act.s2(z), act.s3(z), act.s4(z), a)
  }
}
