/**
  The logical keys the scenes react to (`winit::keyboard::Key`), reduced to
  the keys the program names; every other named key is `OtherNamed`.
 */
module Keys {

  datatype NamedKey = ArrowUp | ArrowDown | ArrowLeft | ArrowRight | F1 | F2 | F3 | Escape | OtherNamed

  datatype Key = Named(name: NamedKey) | Character(text: string) | Unidentified

  /** The keys that select a scene. */
  predicate IsSceneKey(k: Key) {
    k == Named(F1) || k == Named(F2) || k == Named(F3)
  }
}
