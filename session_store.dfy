/**
 * The session token store: one key of the extension's persistent key-value
 * storage, read, written and removed.
 */
module SessionStore {
  import opened Wrappers

  /** The only storage key the client uses. */
  const SessionTokenKey := "sessionToken"

  /** What a read of the session token key yields for storage contents `items`. */
  function TokenOf(items: map<string, string>): (t: Option<string>)
    ensures t.Some? <==> SessionTokenKey in items
    ensures t.Some? ==> t.value == items[SessionTokenKey]
  {
    if SessionTokenKey in items then Some(items[SessionTokenKey]) else None
  }

  /** The persistent storage, with every key the extension has written. */
  class LocalStorage {
    var items: map<string, string>

    constructor (initial: map<string, string>)
      ensures items == initial
    {
      items := initial;
    }

    /** getActiveSession: the stored token, or None when it is absent. */
    method GetActiveSession() returns (t: Option<string>)
      ensures t == TokenOf(items)
    {
      t := if SessionTokenKey in items then Some(items[SessionTokenKey]) else None;
    }

    /** setActiveSession: writes `token` under the session token key. */
    method SetActiveSession(token: string)
      modifies this
      ensures items == old(items)[SessionTokenKey := token]
    {
      items := items[SessionTokenKey := token];
    }

    /** clearActiveSession: removes the session token key. */
    method ClearActiveSession()
      modifies this
      ensures items == old(items) - {SessionTokenKey}
    {
      items := items - {SessionTokenKey};
    }
  }

  /** A read after setActiveSession(t) yields t. */
  lemma ReadAfterSet(items: map<string, string>, t: string)
    ensures TokenOf(items[SessionTokenKey := t]) == Some(t)
  {
  }

  /** A read after clearActiveSession() yields nothing, whatever was stored. */
  lemma ReadAfterClear(items: map<string, string>)
    ensures TokenOf(items - {SessionTokenKey}) == None
  {
  }

  /** Writing or removing the session token leaves every other key as it was. */
  lemma OtherKeysUntouched(items: map<string, string>, t: string, k: string)
    requires k != SessionTokenKey
    ensures (k in items[SessionTokenKey := t]) == (k in items)
    ensures (k in items - {SessionTokenKey}) == (k in items)
    ensures k in items ==> items[SessionTokenKey := t][k] == items[k] && (items - {SessionTokenKey})[k] == items[k]
  {
  }

  /** Setting twice keeps only the last token; clearing then setting is setting. */
  lemma LastWriteWins(items: map<string, string>, t1: string, t2: string)
    ensures items[SessionTokenKey := t1][SessionTokenKey := t2] == items[SessionTokenKey := t2]
    ensures (items - {SessionTokenKey})[SessionTokenKey := t2] == items[SessionTokenKey := t2]
  {
  }
}
