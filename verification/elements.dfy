/** Identity of a track element: the part of a `TrackElement` that vertices and
    the graph's element registry refer to. */
module Elements {

  /** How the legs of a switch are laid out on the diagram
      (`ul`, `ur`, `ll`, `lr` in the source). */
  datatype Orientation = UpperLeft | UpperRight | LowerLeft | LowerRight

  /** What a track element is: the bare base element, a plain track, or a
      switch with its orientation. */
  datatype Kind = Generic | Plain | Turnout(orientation: Orientation)

  /** A track element as registered in a graph. Identifiers are carried as
      the text that the source's `"{}".format(id)` renders. */
  datatype Element = Element(id: string, kind: Kind)
}
