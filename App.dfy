/**
 * The application shell: the in-memory store directory, the access gate
 * (administrator secret or store code), the session slot that lets a login
 * survive a restart, and the choice of screen.
 */
module App {
  import opened Model

  const AdminPassword: string := "1234"
  const AdminDenied: string := "Senha administrativa incorreta. Acesso negado."
  const UnknownStoreCode: string := "Identificador da loja inválido. Verifique o código e tente novamente."

  datatype Role = Admin | Client

  /** What a successful login writes to the session slot. */
  datatype SessionEntry = SessionEntry(role: Role, index: int)

  /** Contents of the browser's session slot: nothing, an entry written by a
      login, or text that does not parse. */
  datatype SessionSlot = Empty | Saved(entry: SessionEntry) | Garbled

  /** What the shell renders. */
  datatype Screen =
    | Spinner
    | AccessScreen(error: Option<string>)
    | ClientDashboard(store: Store)
    | BlankClientPage
    | AdminPanel(activeIdx: int)

  /** Index of the first store whose code equals `code` exactly, or -1. */
  function IndexOfCode(stores: seq<Store>, code: string): (r: int)
    ensures -1 <= r < |stores|
    ensures r == -1 <==> forall i :: 0 <= i < |stores| ==> stores[i].code != code
    ensures r >= 0 ==> stores[r].code == code
    ensures r >= 0 ==> forall i :: 0 <= i < r ==> stores[i].code != code
  {
    if stores == [] then -1
    else if stores[0].code == code then 0
    else
      var k := IndexOfCode(stores[1..], code);
      if k == -1 then -1 else k + 1
  }

  /** The directory with every store whose id equals `updated.id` replaced by `updated`. */
  function ReplaceById(stores: seq<Store>, updated: Store): (r: seq<Store>)
    ensures |r| == |stores|
    ensures forall i :: 0 <= i < |stores| && stores[i].id == updated.id ==> r[i] == updated
    ensures forall i :: 0 <= i < |stores| && stores[i].id != updated.id ==> r[i] == stores[i]
  {
    if stores == [] then []
    else [if stores[0].id == updated.id then updated else stores[0]] + ReplaceById(stores[1..], updated)
  }

  /** Replacing a store whose id is not in the directory changes nothing. */
  lemma ReplaceUnknownIdIsNoop(stores: seq<Store>, updated: Store)
    requires forall i :: 0 <= i < |stores| ==> stores[i].id != updated.id
    ensures ReplaceById(stores, updated) == stores
  {
  }

  /** Replacing is idempotent, and keeps every store id at its position. */
  lemma ReplaceIdempotentKeepsIds(stores: seq<Store>, updated: Store)
    ensures ReplaceById(ReplaceById(stores, updated), updated) == ReplaceById(stores, updated)
    ensures forall i :: 0 <= i < |stores| ==> ReplaceById(stores, updated)[i].id == stores[i].id
  {
  }

  /** After a successful add of a store whose code is new, a login with that
      code finds the added store; if the code was taken, the earlier store wins. */
  lemma AddedStoreFoundByCode(stores: seq<Store>, s: Store)
    ensures IndexOfCode(stores + [s], s.code) >= 0
    ensures IndexOfCode(stores, s.code) == -1 ==> IndexOfCode(stores + [s], s.code) == |stores|
    ensures IndexOfCode(stores, s.code) >= 0 ==> IndexOfCode(stores + [s], s.code) == IndexOfCode(stores, s.code)
  {
    var t := stores + [s];
    assert t[|stores|].code == s.code;
    var k := IndexOfCode(stores, s.code);
    if k >= 0 {
      assert t[k] == stores[k];
    }
  }

  class AppState {
    var stores: seq<Store>
    var activeStoreIndex: Option<int>
    var role: Option<Role>
    var loginError: Option<string>
    var loading: bool
    /** The slot under the session key in the browser's local storage. */
    var session: SessionSlot

    /** A fresh start: nothing loaded yet, the session slot as the browser kept it. */
    constructor (slot: SessionSlot)
      ensures stores == [] && activeStoreIndex == None && role == None
      ensures loginError == None && loading && session == slot
    {
      stores := [];
      activeStoreIndex := None;
      role := None;
      loginError := None;
      loading := true;
      session := slot;
    }

    /** The screen the shell renders: a spinner while loading, the access
        screen until both a role and an index are set, then the panel for the
        role. A client index outside the directory renders no dashboard. */
    function CurrentScreen(): (s: Screen)
      reads this
      ensures !loading && (role == None || activeStoreIndex == None) <==> s.AccessScreen?
      ensures s.AccessScreen? ==> s.error == loginError
      ensures loading ==> s == Spinner
      ensures !loading && role == Some(Admin) && activeStoreIndex.Some? ==> s == AdminPanel(activeStoreIndex.value)
      ensures s.ClientDashboard? <==>
        !loading && role.Some? && role.value == Client && activeStoreIndex.Some? && 0 <= activeStoreIndex.value < |stores|
      ensures s.ClientDashboard? ==> s.store == stores[activeStoreIndex.value]
      ensures s == BlankClientPage <==>
        !loading && role.Some? && role.value == Client && activeStoreIndex.Some? && !(0 <= activeStoreIndex.value < |stores|)
    {
      if loading then Spinner
      else if role == None || activeStoreIndex == None then AccessScreen(loginError)
      else match role.value
        case Admin => AdminPanel(activeStoreIndex.value)
        case Client =>
          var i := activeStoreIndex.value;
          if 0 <= i < |stores| then ClientDashboard(stores[i]) else BlankClientPage
    }

    /** Start-up: install the loaded directory (empty when the load failed) and
        resume the saved session; a slot that does not parse is removed. */
    method InitData(loaded: seq<Store>)
      modifies this
      ensures stores == loaded && !loading && loginError == old(loginError)
      ensures old(session).Saved? ==>
        role == Some(old(session).entry.role) && activeStoreIndex == Some(old(session).entry.index)
        && session == old(session)
      ensures !old(session).Saved? ==>
        role == old(role) && activeStoreIndex == old(activeStoreIndex) && session == Empty
    {
      loading := true;
      stores := loaded;
      match session {
        case Saved(entry) =>
          role := Some(entry.role);
          activeStoreIndex := Some(entry.index);
        case Garbled =>
          session := Empty;
        case Empty =>
      }
      loading := false;
    }

    /** A login attempt. The previous error is always cleared first. */
    method HandleAccess(code: string, isForAdmin: bool)
      modifies this`role, this`activeStoreIndex, this`loginError, this`session
      ensures isForAdmin && code == AdminPassword ==>
        role == Some(Admin) && activeStoreIndex == Some(0)
        && session == Saved(SessionEntry(Admin, 0)) && loginError == None
      ensures isForAdmin && code != AdminPassword ==>
        role == old(role) && activeStoreIndex == old(activeStoreIndex)
        && session == old(session) && loginError == Some(AdminDenied)
      ensures !isForAdmin && IndexOfCode(stores, code) >= 0 ==>
        var i := IndexOfCode(stores, code);
        role == Some(Client) && activeStoreIndex == Some(i)
        && session == Saved(SessionEntry(Client, i)) && loginError == None
      ensures !isForAdmin && IndexOfCode(stores, code) == -1 ==>
        role == old(role) && activeStoreIndex == old(activeStoreIndex)
        && session == old(session) && loginError == Some(UnknownStoreCode)
      ensures !loading && !isForAdmin && IndexOfCode(stores, code) >= 0 ==>
        CurrentScreen() == ClientDashboard(stores[IndexOfCode(stores, code)])
      ensures !loading && isForAdmin && code == AdminPassword ==> CurrentScreen() == AdminPanel(0)
      ensures (!loading && old(role) == None && (isForAdmin ==> code != AdminPassword)
               && (!isForAdmin ==> IndexOfCode(stores, code) == -1)) ==>
        CurrentScreen() == AccessScreen(loginError) && loginError.Some?
    {
      loginError := None;
      if isForAdmin {
        if code == AdminPassword {
          role := Some(Admin);
          activeStoreIndex := Some(0);
          session := Saved(SessionEntry(Admin, 0));
        } else {
          loginError := Some(AdminDenied);
        }
        return;
      }
      var storeIdx := IndexOfCode(stores, code);
      if storeIdx != -1 {
        role := Some(Client);
        activeStoreIndex := Some(storeIdx);
        session := Saved(SessionEntry(Client, storeIdx));
      } else {
        loginError := Some(UnknownStoreCode);
      }
    }

    /** Logout clears role and index and removes the session slot. */
    method HandleLogout()
      modifies this`role, this`activeStoreIndex, this`session
      ensures role == None && activeStoreIndex == None && session == Empty
      ensures !loading ==> CurrentScreen() == AccessScreen(loginError)
    {
      role := None;
      activeStoreIndex := None;
      session := Empty;
    }

    /** Replace-on-save: the directory changes only if the repository accepted the store. */
    method UpdateStore(updated: Store, saved: bool)
      modifies this`stores
      ensures stores == if saved then ReplaceById(old(stores), updated) else old(stores)
    {
      if saved {
        stores := ReplaceById(stores, updated);
      }
    }

    /** Append-on-save: the store is appended only if the repository accepted it. */
    method AddStore(newStore: Store, saved: bool)
      modifies this`stores
      ensures stores == if saved then old(stores) + [newStore] else old(stores)
    {
      if saved {
        stores := stores + [newStore];
      }
    }

    /** The administrator picks a store from the list; the session slot is not rewritten. */
    method SelectStore(idx: int)
      modifies this`activeStoreIndex
      ensures activeStoreIndex == Some(idx)
    {
      activeStoreIndex := Some(idx);
    }
  }
}
