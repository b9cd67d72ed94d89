/** The unit that flows through a pipeline (model/Message.kt). */
module Messages {

  /** A Kotlin data class: two messages are equal exactly when their ids
      and contents are equal, which is Dafny's structural equality. */
  datatype Message = Message(id: string, content: string)
}
