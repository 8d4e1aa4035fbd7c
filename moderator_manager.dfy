/** The moderator form of `components/ModeratorManager.tsx`. */
module ModeratorManager {
  import opened Wrappers
  import opened Domain

  /** The record `handleSubmit` builds, or `None` when a field is empty. The
      id is the caller's (`m-${Date.now()}` in the source); the password is
      checked for presence but not stored. */
  function NewModerator(name: string, email: string, password: string, id: string): (r: Option<User>)
    ensures r.None? <==> name == "" || email == "" || password == ""
    ensures r.Some? ==> r.value == User(id, name, email, Moderator)
  {
    if name == "" || email == "" || password == "" then None
    else Some(User(id, name, email, Moderator))
  }

  /** The form's state. */
  class ModeratorForm {
    var name: string
    var email: string
    var password: string
    var isAdding: bool

    constructor ()
      ensures name == "" && email == "" && password == "" && !isAdding
    {
      name, email, password, isAdding := "", "", "", false;
    }

    /** `handleSubmit`: `added` is the record handed to `onAddModerator`;
        on success the fields are cleared and the form closes, otherwise
        nothing changes. */
    method HandleSubmit(newId: string) returns (added: Option<User>)
      modifies this
      ensures added == NewModerator(old(name), old(email), old(password), newId)
      ensures added.Some? ==> name == "" && email == "" && password == "" && !isAdding
      ensures added.None? ==> name == old(name) && email == old(email)
      ensures added.None? ==> password == old(password) && isAdding == old(isAdding)
    {
      if name == "" || email == "" || password == "" {
        return None;
      }
      added := Some(User(newId, name, email, Moderator));
      name, email, password := "", "", "";
      isAdding := false;
    }

    /** The "+ New Moderator" / "Cancel" button. */
    method ToggleAdding()
      modifies this
      ensures isAdding == !old(isAdding)
      ensures name == old(name) && email == old(email) && password == old(password)
    {
      isAdding := !isAdding;
    }
  }
}
