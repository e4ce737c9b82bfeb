/** The two browser-side collaborators the services share: the key-value store
    (`localStorage`) and the router, which records the navigations requested of it. */
module Browser {
  import opened Wrappers

  /** `router.navigate([path], { queryParams })`. */
  datatype Navigation = Navigation(path: string, queryParams: map<string, string>)

  class Router {
    var navigations: seq<Navigation>

    constructor()
      ensures navigations == []
    {
      navigations := [];
    }

    method Navigate(path: string, queryParams: map<string, string>)
      modifies this
      ensures navigations == old(navigations) + [Navigation(path, queryParams)]
    {
      navigations := navigations + [Navigation(path, queryParams)];
    }
  }

  class LocalStorage {
    var items: map<string, string>

    /** `initial` is what earlier sessions left in the store. */
    constructor(initial: map<string, string>)
      ensures items == initial
    {
      items := initial;
    }

    /** `getItem(key)`: the stored string, or null. */
    function GetItem(key: string): Option<string>
      reads this
    {
      if key in items then Some(items[key]) else None
    }

    method SetItem(key: string, value: string)
      modifies this
      ensures items == old(items)[key := value]
    {
      items := items[key := value];
    }

    method RemoveItem(key: string)
      modifies this
      ensures items == old(items) - {key}
    {
      items := items - {key};
    }
  }
}
