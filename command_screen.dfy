/** The first screen of the command, chosen from the state of the session initialisation. */
module CommandScreen {
  import opened Wrappers

  /**
   * What the promise hook reports for the session initialisation: an error,
   * whether it is still loading, and its result (whether the session is temporary).
   */
  datatype InitState = InitState(error: Option<string>, isLoading: bool, data: Option<bool>)

  datatype Screen =
    | ErrorDetail(message: string)
    | LoadingList
    | InstitutionPicker
    | AccountsView

  /** The screen choice of `Command`: error, then loading, then temporary session, else accounts. */
  function Choose(s: InitState): (screen: Screen)
    ensures screen.ErrorDetail? <==> s.error.Some?
    ensures screen.ErrorDetail? ==> screen.message == s.error.value
    ensures screen == LoadingList <==> s.error.None? && s.isLoading
    ensures screen == InstitutionPicker <==> s.error.None? && !s.isLoading && s.data == Some(true)
    ensures screen == AccountsView <==> s.error.None? && !s.isLoading && s.data != Some(true)
  {
    if s.error.Some? then ErrorDetail(s.error.value)
    else if s.isLoading then LoadingList
    else if s.data == Some(true) then InstitutionPicker
    else AccountsView
  }

  /** An error wins over everything, even while loading or with a result. */
  lemma ErrorFirst(msg: string, isLoading: bool, data: Option<bool>)
    ensures Choose(InitState(Some(msg), isLoading, data)) == ErrorDetail(msg)
  {
  }

  /** The accounts are shown only when the initialisation has not reported a temporary session. */
  lemma AccountsOnlyWithoutTemporarySession(s: InitState)
    requires Choose(s) == AccountsView
    ensures s.data != Some(true) && !s.isLoading
  {
  }
}
