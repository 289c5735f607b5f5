/** The browser-side session state shared by the login page and the sidebar:
    the js-cookie jar, `window.localStorage`, and the route the Next.js router
    last pushed. */
module ClientStore {

  /** A snapshot of the browser session state. */
  datatype Store = Store(cookies: map<string, string>, localStorage: map<string, string>, route: string)

  /** The live browser state; each method is one call of the cookie, storage or router API. */
  class Browser {
    var cookies: map<string, string>
    var localStorage: map<string, string>
    var route: string

    function Snapshot(): Store
      reads this
    {
      Store(cookies, localStorage, route)
    }

    constructor (initial: Store)
      ensures Snapshot() == initial
    {
      cookies := initial.cookies;
      localStorage := initial.localStorage;
      route := initial.route;
    }

    /** `Cookies.set(name, value, …)`: creates or overwrites one cookie. */
    method SetCookie(name: string, value: string)
      modifies this`cookies
      ensures cookies == old(cookies)[name := value]
    {
      cookies := cookies[name := value];
    }

    /** `Cookies.remove(name)`: deletes one cookie; a missing one is left missing. */
    method RemoveCookie(name: string)
      modifies this`cookies
      ensures cookies == old(cookies) - {name}
    {
      cookies := cookies - {name};
    }

    /** `localStorage.setItem(key, value)`. */
    method SetItem(key: string, value: string)
      modifies this`localStorage
      ensures localStorage == old(localStorage)[key := value]
    {
      localStorage := localStorage[key := value];
    }

    /** `router.push(target)`. */
    method Push(target: string)
      modifies this`route
      ensures route == target
    {
      route := target;
    }
  }
}
