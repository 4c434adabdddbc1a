/** The two pieces of browser state the session logic touches: the secure
    key/value storage that holds the session, and the router's current path. */
module Browser {
  import opened Remote

  /** The signed-in user as the login response returns it. */
  datatype User = User(id: string, name: string, email: string, role: string)

  /** What a storage slot holds: the session token (a string) or the user. */
  datatype Stored = Text(text: string) | UserRecord(user: User)

  /** `if (token)` on `getItem('token')`: a missing slot (null) and an empty
      string are falsy, a user object is truthy. */
  predicate HasToken(items: map<string, Stored>)
  {
    "token" in items && items["token"] != Text("")
  }

  /** The persistent storage, as a map from keys to stored values. */
  class SecureStorage {
    var items: map<string, Stored>

    constructor (initial: map<string, Stored>)
      ensures items == initial
    {
      items := initial;
    }

    /** `getItem(key)`: None stands for null. */
    function GetItem(key: string): Option<Stored>
      reads this
    {
      if key in items then Some(items[key]) else None
    }

    method SetItem(key: string, value: Stored)
      modifies this
      ensures items == old(items)[key := value]
    {
      items := items[key := value];
    }

    method RemoveItem(key: string)
      modifies this
      ensures items == old(items) - {key}
    {
      items := items - {key};
    }
  }

  /** The router: `navigate(path)` replaces the current location. */
  class Router {
    var pathname: string

    constructor (start: string)
      ensures pathname == start
    {
      pathname := start;
    }

    method Navigate(path: string)
      modifies this
      ensures pathname == path
    {
      pathname := path;
    }
  }
}
