/** One conversational turn as the widget stores and renders it. */
module Messages {

  /** Who produced a turn: the person typing, or the language model. */
  datatype Role = User | Model

  /** A chat turn. The id is the rendering key, taken from the clock by the
      caller; the creation timestamp is not modelled. */
  datatype Message = Message(id: string, role: Role, text: string)
}
