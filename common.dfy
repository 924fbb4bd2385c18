/** Vocabulary shared by every part of the tracker model. */
module Common {

  /** A value that a stored record may lack (JavaScript `undefined`, or a falsy date string). */
  datatype Option<+T> = None | Some(value: T) {
    /** The value, or `default` when absent: the `x || default` idiom of the source. */
    function GetOr(default: T): (r: T)
      ensures Some? ==> r == value
      ensures None? ==> r == default
    {
      match this
      case Some(v) => v
      case None => default
    }
  }

  /** A calendar day. Days are only compared for equality; the day before `d` is `d - 1`. */
  type Day = int

  /** `'positive' | 'negative'`: a habit to build or a habit to avoid. */
  datatype HabitType = Positive | Negative

  /** `'active' | 'completed' | 'archived'`: the stored status of a project. */
  datatype ProjectStatus = Active | Completed | Archived

  /**
   * What a server action hands back: `{ success: true }`, `{ success: true, project }`,
   * `{ error: message }`, or nothing at all.
   */
  datatype Reply<+T> = Success | SuccessWith(record: T) | Error(message: string) | NoReply

  const MissingData: string := "Missing data"
  const Failed: string := "Failed"
}
