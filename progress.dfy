/** The boundary to the hosted store. Every level ends by reading the
    current session (`supabase.auth.getSession()`) and, when there is one,
    upserting a row of `user_progress`. The store itself is outside the
    model: what it answers is a parameter of the submitting method, and the
    row the level sends is that method's result. */
module Progress {
  import opened Wrappers

  /** What the two remote calls answer: no session, so no row is sent; a
      save that reports an error; or a saved row. */
  datatype SaveOutcome = NoSession | Failed | Saved

  /** The `user_progress` row a level sends. The user id comes from the
      session and is not modelled; `attempts` is present only in the two
      levels that send it. */
  datatype Upsert = Upsert(levelId: int, score: int, completed: bool, attempts: Option<int>)

  /** The row that reaches the store: none without a session. */
  function Sent(save: SaveOutcome, row: Upsert): (r: Option<Upsert>)
    ensures r.Some? <==> save != NoSession
    ensures r.Some? ==> r.value == row
  {
    if save == NoSession then None else Some(row)
  }
}
